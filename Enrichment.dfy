/**
 * The join of obstructions with impacts that all three variants of the
 * pipeline perform: an impact lookup keyed by `id_request`, then an inner
 * join on `obstruction.id` guarded by the presence of both coordinates.
 */
module Enrichment {
  import opened Values
  import opened Records

  // ---------------------------------------------------------------------
  // The impact lookup
  // ---------------------------------------------------------------------

  /** Whether a key may enter the lookup: the guarded variant skips falsy keys. */
  predicate Admitted(key: Field, guarded: bool)
  {
    !guarded || Truthy(key)
  }

  /**
   * The lookup as a left fold of `Map.set` over the impacts: each admitted
   * impact overwrites whatever an earlier one stored under the same key.
   * Every key is admitted and holds one of the impacts, which carries it.
   */
  function Index(impacts: seq<Impact>, guarded: bool): (m: map<Field, Impact>)
    ensures forall key :: key in m ==> Admitted(key, guarded) && m[key].idRequest == key
    ensures forall key :: key in m ==> m[key] in impacts
  {
    if impacts == [] then map[]
    else
      var n := |impacts| - 1;
      var m := Index(impacts[..n], guarded);
      var i := impacts[n];
      if Admitted(i.idRequest, guarded) then m[i.idRequest := i] else m
  }

  /** A key is in the lookup iff it is admitted and some impact carries it. */
  lemma {:induction false} IndexKeys(impacts: seq<Impact>, guarded: bool, key: Field)
    ensures key in Index(impacts, guarded) <==>
            Admitted(key, guarded) && exists j :: 0 <= j < |impacts| && impacts[j].idRequest == key
  {
    if impacts != [] {
      var n := |impacts| - 1;
      IndexKeys(impacts[..n], guarded, key);
      if exists j :: 0 <= j < |impacts| && impacts[j].idRequest == key {
        var j :| 0 <= j < |impacts| && impacts[j].idRequest == key;
        if j < n {
          assert impacts[..n][j] == impacts[j];
        }
      }
    }
  }

  /** Last write wins: the lookup holds the last impact that carries the key. */
  lemma {:induction false} IndexLastWins(impacts: seq<Impact>, guarded: bool, j: nat)
    requires j < |impacts| && Admitted(impacts[j].idRequest, guarded)
    requires forall l :: j < l < |impacts| ==> impacts[l].idRequest != impacts[j].idRequest
    ensures impacts[j].idRequest in Index(impacts, guarded)
    ensures Index(impacts, guarded)[impacts[j].idRequest] == impacts[j]
  {
    var n := |impacts| - 1;
    if j < n {
      var prefix := impacts[..n];
      assert prefix[j] == impacts[j];
      forall l | j < l < |prefix| ensures prefix[l].idRequest != prefix[j].idRequest {
        assert prefix[l] == impacts[l];
      }
      IndexLastWins(prefix, guarded, j);
    }
  }

  /**
   * The guard only drops falsy keys: on a truthy key the guarded and the
   * unguarded lookups agree, and the guarded one holds no falsy key.
   */
  lemma {:induction false} IndexGuard(impacts: seq<Impact>, key: Field)
    ensures !Truthy(key) ==> key !in Index(impacts, true)
    ensures Truthy(key) ==> (key in Index(impacts, true) <==> key in Index(impacts, false))
    ensures Truthy(key) && key in Index(impacts, true) ==>
            Index(impacts, true)[key] == Index(impacts, false)[key]
  {
    if impacts != [] {
      IndexGuard(impacts[..|impacts| - 1], key);
    }
  }

  /** The lookup filled in place by `forEach` and `Map.set`, skipping falsy keys. */
  method BuildImpactMap(impacts: seq<Impact>) returns (impactMap: map<Field, Impact>)
    ensures impactMap == Index(impacts, true)
  {
    impactMap := map[];
    var n := 0;
    while n < |impacts|
      invariant n <= |impacts|
      invariant impactMap == Index(impacts[..n], true)
    {
      var i := impacts[n];
      if Truthy(i.idRequest) {
        impactMap := impactMap[i.idRequest := i];
      }
      assert impacts[..n + 1][..n] == impacts[..n];
      n := n + 1;
    }
    assert impacts[..n] == impacts;
  }

  // ---------------------------------------------------------------------
  // Order-preserving filtering
  // ---------------------------------------------------------------------

  /** `xs.filter(p)`: the elements satisfying `p`, in their order in `xs`. */
  function Filter<T>(xs: seq<T>, p: T -> bool): (r: seq<T>)
    ensures |r| <= |xs|
    ensures forall k :: 0 <= k < |r| ==> p(r[k])
  {
    if xs == [] then []
    else
      var n := |xs| - 1;
      Filter(xs[..n], p) + (if p(xs[n]) then [xs[n]] else [])
  }

  /** An element is kept iff it occurs in `xs` and satisfies `p`. */
  lemma {:induction false} FilterMembers<T>(xs: seq<T>, p: T -> bool, x: T)
    ensures x in Filter(xs, p) <==> x in xs && p(x)
  {
    if xs != [] {
      var n := |xs| - 1;
      assert xs == xs[..n] + [xs[n]];
      FilterMembers(xs[..n], p, x);
    }
  }

  /** The positions in `xs` of the elements that satisfy `p`, in increasing order. */
  function Origins<T>(xs: seq<T>, p: T -> bool): (o: seq<nat>)
    ensures forall k :: 0 <= k < |o| ==> o[k] < |xs|
  {
    if xs == [] then []
    else
      var n := |xs| - 1;
      Origins(xs[..n], p) + (if p(xs[n]) then [n] else [])
  }

  /**
   * `Filter` picks exactly the satisfying positions of `xs`, each once, in
   * increasing order: its k-th element is the element at the k-th such
   * position.
   */
  lemma {:induction false} FilterByOrigins<T>(xs: seq<T>, p: T -> bool)
    ensures |Filter(xs, p)| == |Origins(xs, p)|
    ensures forall k :: 0 <= k < |Origins(xs, p)| ==>
              Origins(xs, p)[k] < |xs| && Filter(xs, p)[k] == xs[Origins(xs, p)[k]]
    ensures forall k, l :: 0 <= k < l < |Origins(xs, p)| ==> Origins(xs, p)[k] < Origins(xs, p)[l]
    ensures forall i :: 0 <= i < |xs| ==> (i in Origins(xs, p) <==> p(xs[i]))
  {
    if xs != [] {
      var n := |xs| - 1;
      var prefix := xs[..n];
      FilterByOrigins(prefix, p);
      forall i | 0 <= i < n ensures xs[i] == prefix[i] { }
    }
  }

  // ---------------------------------------------------------------------
  // The join
  // ---------------------------------------------------------------------

  /**
   * An obstruction survives the join iff its `id` finds an impact and both
   * of its coordinates are truthy (the strings are only tested, not parsed).
   */
  predicate Survives(e: Obstruction, impactMap: map<Field, Impact>)
  {
    e.id in impactMap && Truthy(e.latitude) && Truthy(e.longitude)
  }

  /**
   * `obstructions.map(e => survives ? shape(e, impact) : null).filter(Boolean)`:
   * one shaped record per surviving obstruction, in obstruction order.
   */
  function Join<T>(obstructions: seq<Obstruction>, impactMap: map<Field, Impact>,
                   shape: (Obstruction, Impact) -> T): (r: seq<T>)
    ensures |r| <= |obstructions|
  {
    var kept := Filter(obstructions, e => Survives(e, impactMap));
    seq(|kept|, k requires 0 <= k < |kept| => shape(kept[k], impactMap[kept[k].id]))
  }

  /** The positions of the surviving obstructions, in increasing order. */
  function Survivors(obstructions: seq<Obstruction>, impactMap: map<Field, Impact>): seq<nat>
  {
    Origins(obstructions, e => Survives(e, impactMap))
  }

  /**
   * The join holds one record per surviving obstruction and no other: the
   * k-th record is the shape of the k-th survivor and its matched impact,
   * the survivors are taken in increasing position, and a position is taken
   * iff the obstruction there survives.
   */
  lemma JoinBySurvivors<T>(obstructions: seq<Obstruction>, impactMap: map<Field, Impact>,
                           shape: (Obstruction, Impact) -> T)
    ensures |Join(obstructions, impactMap, shape)| == |Survivors(obstructions, impactMap)|
    ensures forall k :: 0 <= k < |Survivors(obstructions, impactMap)| ==>
              var i := Survivors(obstructions, impactMap)[k];
              i < |obstructions| && Survives(obstructions[i], impactMap) &&
              Join(obstructions, impactMap, shape)[k] ==
                shape(obstructions[i], impactMap[obstructions[i].id])
    ensures forall k, l :: 0 <= k < l < |Survivors(obstructions, impactMap)| ==>
              Survivors(obstructions, impactMap)[k] < Survivors(obstructions, impactMap)[l]
    ensures forall i :: 0 <= i < |obstructions| ==>
              (i in Survivors(obstructions, impactMap) <==> Survives(obstructions[i], impactMap))
  {
    FilterByOrigins(obstructions, e => Survives(e, impactMap));
  }
}
