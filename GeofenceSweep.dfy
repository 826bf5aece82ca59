/**
 * The background task of `utils/backgroundTasks.ts`: the configuration guard
 * of its registration, and the `CHECK_CONSTRUCTIONS` task body, which joins
 * the two data sets into upcoming constructions and, for each saved address
 * in turn, notifies about the first upcoming construction within 100 m.
 */
module GeofenceSweep {
  import opened Values
  import opened Records
  import opened Enrichment

  /** `DISTANCE_LIMIT`, in meters. */
  const DistanceLimit: real := 100.0

  /** The `minimumInterval` value passed at registration, `60 * 60 * 24` as written. */
  const MinimumInterval: int := 60 * 60 * 24

  // ---------------------------------------------------------------------
  // Registration
  // ---------------------------------------------------------------------

  /** The `extra` section of the app configuration (`undefined` keys are `Missing`). */
  datatype Config = Config(impactsUrl: Field, entravesUrl: Field, orsKey: Field)

  /** The platform calls registration makes, in order. */
  datatype Step = RequestPermissions | DefineTask | RegisterTask(minimumInterval: int)

  datatype Registration = ConfigurationError | Registered(steps: seq<Step>)

  /**
   * `registerBackgroundTask`: it throws, before any platform call, iff one of
   * the two data-set URLs is falsy; `ORS_KEY` plays no part. Otherwise it
   * asks for permissions before it defines and registers the task.
   */
  function Register(cfg: Config): (r: Registration)
    ensures r.ConfigurationError? <==> !Truthy(cfg.entravesUrl) || !Truthy(cfg.impactsUrl)
    ensures r.Registered? ==> |r.steps| == 3 && r.steps[0] == RequestPermissions
                              && r.steps[1] == DefineTask
                              && r.steps[2] == RegisterTask(MinimumInterval)
  {
    if !Truthy(cfg.entravesUrl) || !Truthy(cfg.impactsUrl) then ConfigurationError
    else Registered([RequestPermissions, DefineTask, RegisterTask(MinimumInterval)])
  }

  // ---------------------------------------------------------------------
  // Candidates
  // ---------------------------------------------------------------------

  /** A JavaScript `Date`: a time in milliseconds, or an invalid date. */
  datatype Date = Valid(ms: int) | Invalid

  datatype Candidate<N> = Candidate(lat: N, lon: N, reason: Field, startDate: Date)

  /**
   * The task's shape of a joined record; `parseDate` is `new Date(...)` on
   * `duration_start_date`.
   */
  function ToCandidate<N>(e: Obstruction, imp: Impact, toNumber: Field -> N,
                          parseDate: Field -> Date): Candidate<N>
  {
    Candidate(toNumber(e.latitude), toNumber(e.longitude), e.reasonCategory, parseDate(e.startDate))
  }

  /** `c.startDate > new Date()`: an invalid date compares false. */
  predicate Upcoming<N>(c: Candidate<N>, now: int)
  {
    c.startDate.Valid? && c.startDate.ms > now
  }

  function Joined<N>(entraves: seq<Obstruction>, impactMap: map<Field, Impact>,
                     toNumber: Field -> N, parseDate: Field -> Date): seq<Candidate<N>>
  {
    Join(entraves, impactMap, (e, imp) => ToCandidate(e, imp, toNumber, parseDate))
  }

  /** `constructions`: the joined records whose start lies strictly after `now`. */
  function Candidates<N>(entraves: seq<Obstruction>, impactMap: map<Field, Impact>,
                         toNumber: Field -> N, parseDate: Field -> Date, now: int)
    : (cs: seq<Candidate<N>>)
    ensures forall k :: 0 <= k < |cs| ==> Upcoming(cs[k], now)
  {
    Filter(Joined(entraves, impactMap, toNumber, parseDate), c => Upcoming(c, now))
  }

  /** An obstruction becomes a candidate: it survives the join and starts after `now`. */
  predicate Eligible<N>(e: Obstruction, impactMap: map<Field, Impact>,
                        toNumber: Field -> N, parseDate: Field -> Date, now: int)
  {
    Survives(e, impactMap) && Upcoming(ToCandidate(e, impactMap[e.id], toNumber, parseDate), now)
  }

  /** The obstruction position each candidate comes from. */
  function CandidateSources<N>(entraves: seq<Obstruction>, impactMap: map<Field, Impact>,
                               toNumber: Field -> N, parseDate: Field -> Date, now: int): seq<nat>
  {
    var survivors := Survivors(entraves, impactMap);
    var picked := Origins(Joined(entraves, impactMap, toNumber, parseDate), c => Upcoming(c, now));
    JoinedLength(entraves, impactMap, toNumber, parseDate);
    seq(|picked|, k requires 0 <= k < |picked| => survivors[picked[k]])
  }

  /** There is one joined record per surviving obstruction. */
  lemma JoinedLength<N>(entraves: seq<Obstruction>, impactMap: map<Field, Impact>,
                        toNumber: Field -> N, parseDate: Field -> Date)
    ensures |Joined(entraves, impactMap, toNumber, parseDate)| == |Survivors(entraves, impactMap)|
  {
    JoinBySurvivors(entraves, impactMap, (e, imp) => ToCandidate(e, imp, toNumber, parseDate));
  }

  /**
   * The candidates are exactly the eligible obstructions, each once, in
   * obstruction order: the k-th candidate is the shape of the obstruction at
   * the k-th source position, the source positions increase, and a position
   * is a source iff the obstruction there is eligible.
   */
  lemma CandidatesFromObstructions<N>(entraves: seq<Obstruction>, impactMap: map<Field, Impact>,
                                      toNumber: Field -> N, parseDate: Field -> Date, now: int)
    ensures |Candidates(entraves, impactMap, toNumber, parseDate, now)|
            == |CandidateSources(entraves, impactMap, toNumber, parseDate, now)|
    ensures forall k :: 0 <= k < |CandidateSources(entraves, impactMap, toNumber, parseDate, now)| ==>
              var i := CandidateSources(entraves, impactMap, toNumber, parseDate, now)[k];
              0 <= i < |entraves| && Eligible(entraves[i], impactMap, toNumber, parseDate, now) &&
              Candidates(entraves, impactMap, toNumber, parseDate, now)[k]
                == ToCandidate(entraves[i], impactMap[entraves[i].id], toNumber, parseDate)
    ensures forall k, l :: 0 <= k < l < |CandidateSources(entraves, impactMap, toNumber, parseDate, now)| ==>
              CandidateSources(entraves, impactMap, toNumber, parseDate, now)[k]
              < CandidateSources(entraves, impactMap, toNumber, parseDate, now)[l]
    ensures forall i :: 0 <= i < |entraves| ==>
              (i in CandidateSources(entraves, impactMap, toNumber, parseDate, now)
               <==> Eligible(entraves[i], impactMap, toNumber, parseDate, now))
  {
    var shape := (e, imp) => ToCandidate(e, imp, toNumber, parseDate);
    var joined := Joined(entraves, impactMap, toNumber, parseDate);
    var upcoming := c => Upcoming(c, now);
    var survivors := Survivors(entraves, impactMap);
    var picked := Origins(joined, upcoming);
    var sources := CandidateSources(entraves, impactMap, toNumber, parseDate, now);
    JoinBySurvivors(entraves, impactMap, shape);
    FilterByOrigins(joined, upcoming);
    assert forall k :: 0 <= k < |sources| ==> sources[k] == survivors[picked[k]];
    forall i | 0 <= i < |entraves| && Eligible(entraves[i], impactMap, toNumber, parseDate, now)
      ensures i in sources
    {
      assert i in survivors;
      var s :| 0 <= s < |survivors| && survivors[s] == i;
      assert upcoming(joined[s]);
      assert s in picked;
      var k :| 0 <= k < |picked| && picked[k] == s;
      assert sources[k] == i;
    }
  }

  // ---------------------------------------------------------------------
  // The first match near one saved address
  // ---------------------------------------------------------------------

  /** `dist <= DISTANCE_LIMIT`. */
  predicate Within(d: Measure)
  {
    d.Meters? && d.m <= DistanceLimit
  }

  /** Farther than the limit: the search goes on past this candidate. */
  predicate Beyond(d: Measure)
  {
    d.Meters? && d.m > DistanceLimit
  }

  /** The outcome of `constructions.find(...)`: a position, nothing, or an exception. */
  datatype Search = Found(index: nat) | NotFound | Threw(index: nat)

  /**
   * `constructions.find(c => turf.distance(pt, [c.lon, c.lat]) <= 100)`,
   * searched from position `from` on: the first candidate within the limit
   * in list order (not the nearest), unless the distance call throws first.
   */
  function FindNear<N>(cands: seq<Candidate<N>>, here: Position<N>,
                       distance: (Position<N>, Position<N>) -> Measure, from: nat): (r: Search)
    requires from <= |cands|
    decreases |cands| - from
    ensures r.Found? ==> from <= r.index < |cands|
                         && Within(distance(here, (cands[r.index].lon, cands[r.index].lat)))
    ensures r.Threw? ==> from <= r.index < |cands|
                         && distance(here, (cands[r.index].lon, cands[r.index].lat)).Raised?
    ensures r.NotFound? ==> forall i :: from <= i < |cands| ==> Beyond(distance(here, (cands[i].lon, cands[i].lat)))
    ensures !r.NotFound? ==> forall i :: from <= i < r.index ==> Beyond(distance(here, (cands[i].lon, cands[i].lat)))
  {
    if from == |cands| then NotFound
    else
      match distance(here, (cands[from].lon, cands[from].lat))
      case Raised => Threw(from)
      case Meters(dist) =>
        if dist <= DistanceLimit then Found(from) else FindNear(cands, here, distance, from + 1)
  }

  // ---------------------------------------------------------------------
  // Notifications
  // ---------------------------------------------------------------------

  /** A saved address; `coords` is in (lon, lat) order. */
  datatype SavedAddress<N> = SavedAddress(addressLabel: string, coords: Position<N>)

  datatype Notification = Notification(title: string, body: string)

  const TitlePrefix: string := "Travaux près de "
  const BodyLink: string := " à venir le "

  /**
   * The notification for an address and its matched construction;
   * `formatDate` is `toLocaleDateString`, which prints an invalid date as
   * "Invalid Date". The title names the address and the body starts with the
   * construction's reason.
   */
  function NotificationFor<N>(addr: SavedAddress<N>, c: Candidate<N>, formatDate: int -> string)
    : (n: Notification)
    ensures n.title == TitlePrefix + addr.addressLabel
    ensures |Text(c.reason)| <= |n.body| && n.body[..|Text(c.reason)|] == Text(c.reason)
  {
    var date := match c.startDate
      case Valid(ms) => formatDate(ms)
      case Invalid => "Invalid Date";
    Notification(TitlePrefix + addr.addressLabel, Text(c.reason) + BodyLink + date)
  }

  /** Whether a saved address has a construction within the limit. */
  predicate HasMatch<N>(addr: SavedAddress<N>, cands: seq<Candidate<N>>,
                        distance: (Position<N>, Position<N>) -> Measure)
  {
    FindNear(cands, addr.coords, distance, 0).Found?
  }

  /** The notification for an address with a match: its first near candidate. */
  function AlertFor<N>(addr: SavedAddress<N>, cands: seq<Candidate<N>>,
                       distance: (Position<N>, Position<N>) -> Measure,
                       formatDate: int -> string): Notification
    requires HasMatch(addr, cands, distance)
  {
    NotificationFor(addr, cands[FindNear(cands, addr.coords, distance, 0).index], formatDate)
  }

  /**
   * The notifications a sweep asks for when nothing fails: one for each
   * saved address that has a match, in saved-address order.
   */
  function Alerts<N>(saved: seq<SavedAddress<N>>, cands: seq<Candidate<N>>,
                     distance: (Position<N>, Position<N>) -> Measure,
                     formatDate: int -> string): (r: seq<Notification>)
    ensures |r| <= |saved|
  {
    var matched := Filter(saved, a => HasMatch(a, cands, distance));
    seq(|matched|, k requires 0 <= k < |matched| => AlertFor(matched[k], cands, distance, formatDate))
  }

  /** The positions of the saved addresses that have a match, in increasing order. */
  function Matched<N>(saved: seq<SavedAddress<N>>, cands: seq<Candidate<N>>,
                      distance: (Position<N>, Position<N>) -> Measure): seq<nat>
  {
    Origins(saved, a => HasMatch(a, cands, distance))
  }

  /**
   * At most one notification per address, in saved-address order: the k-th
   * notification is for the k-th address with a match, and names it and the
   * first candidate within the limit of it.
   */
  lemma AlertsByAddress<N>(saved: seq<SavedAddress<N>>, cands: seq<Candidate<N>>,
                           distance: (Position<N>, Position<N>) -> Measure,
                           formatDate: int -> string)
    ensures |Alerts(saved, cands, distance, formatDate)| == |Matched(saved, cands, distance)| <= |saved|
    ensures forall k :: 0 <= k < |Matched(saved, cands, distance)| ==>
              var addr := saved[Matched(saved, cands, distance)[k]];
              var search := FindNear(cands, addr.coords, distance, 0);
              && search.Found?
              && Alerts(saved, cands, distance, formatDate)[k]
                 == NotificationFor(addr, cands[search.index], formatDate)
    ensures forall k, l :: 0 <= k < l < |Matched(saved, cands, distance)| ==>
              Matched(saved, cands, distance)[k] < Matched(saved, cands, distance)[l]
    ensures forall i :: 0 <= i < |saved| ==>
              (i in Matched(saved, cands, distance) <==> HasMatch(saved[i], cands, distance))
  {
    FilterByOrigins(saved, a => HasMatch(a, cands, distance));
  }

  // ---------------------------------------------------------------------
  // The sweep
  // ---------------------------------------------------------------------

  /** The notifications handed to the notifier so far, and whether no exception occurred. */
  datatype Sweep = Sweep(sent: seq<Notification>, ok: bool)

  /**
   * The `for...of` loop over the saved addresses: each address with a match
   * yields one notification; an exception ends the task, be it of
   * `turf.point` on the address (`pointOk` answers false), of the distance
   * call or of the notifier (`deliver` answers false). No more notifications
   * are sent than there are addresses, and each names a saved address and
   * one of the candidates.
   */
  function Swept<N>(saved: seq<SavedAddress<N>>, cands: seq<Candidate<N>>,
                    pointOk: Position<N> -> bool,
                    distance: (Position<N>, Position<N>) -> Measure,
                    formatDate: int -> string, deliver: Notification -> bool): (r: Sweep)
    ensures |r.sent| <= |saved|
    ensures forall note :: note in r.sent ==>
              exists i, j :: 0 <= i < |saved| && 0 <= j < |cands|
                             && note == NotificationFor(saved[i], cands[j], formatDate)
  {
    if saved == [] then Sweep([], true)
    else
      var n := |saved| - 1;
      var before := Swept(saved[..n], cands, pointOk, distance, formatDate, deliver);
      assert forall i :: 0 <= i < n ==> saved[..n][i] == saved[i];
      if !before.ok then before
      else if !pointOk(saved[n].coords) then Sweep(before.sent, false)
      else match FindNear(cands, saved[n].coords, distance, 0)
        case NotFound => before
        case Threw(_) => Sweep(before.sent, false)
        case Found(j) =>
          var note := NotificationFor(saved[n], cands[j], formatDate);
          if deliver(note) then Sweep(before.sent + [note], true) else Sweep(before.sent, false)
  }

  /** An address whose turn raises no exception. */
  predicate Clean<N>(addr: SavedAddress<N>, cands: seq<Candidate<N>>,
                     pointOk: Position<N> -> bool,
                     distance: (Position<N>, Position<N>) -> Measure,
                     formatDate: int -> string, deliver: Notification -> bool)
  {
    pointOk(addr.coords) &&
    match FindNear(cands, addr.coords, distance, 0)
    case NotFound => true
    case Threw(_) => false
    case Found(j) => deliver(NotificationFor(addr, cands[j], formatDate))
  }

  lemma AlertsSnoc<N>(saved: seq<SavedAddress<N>>, cands: seq<Candidate<N>>,
                      distance: (Position<N>, Position<N>) -> Measure,
                      formatDate: int -> string)
    requires saved != []
    ensures var n := |saved| - 1;
            Alerts(saved, cands, distance, formatDate) ==
            Alerts(saved[..n], cands, distance, formatDate) +
            (if HasMatch(saved[n], cands, distance)
             then [AlertFor(saved[n], cands, distance, formatDate)] else [])
  {
  }

  /**
   * The sweep succeeds iff no address's turn raises an exception; what it
   * hands to the notifier is always a prefix of `Alerts`, and all of it on
   * success.
   */
  lemma {:induction false} SweptAgainstAlerts<N>(saved: seq<SavedAddress<N>>, cands: seq<Candidate<N>>,
                                                 pointOk: Position<N> -> bool,
                                                 distance: (Position<N>, Position<N>) -> Measure,
                                                 formatDate: int -> string,
                                                 deliver: Notification -> bool)
    ensures Swept(saved, cands, pointOk, distance, formatDate, deliver).ok <==>
            forall i :: 0 <= i < |saved| ==> Clean(saved[i], cands, pointOk, distance, formatDate, deliver)
    ensures Swept(saved, cands, pointOk, distance, formatDate, deliver).sent <= Alerts(saved, cands, distance, formatDate)
    ensures Swept(saved, cands, pointOk, distance, formatDate, deliver).ok ==>
            Swept(saved, cands, pointOk, distance, formatDate, deliver).sent == Alerts(saved, cands, distance, formatDate)
  {
    if saved != [] {
      var n := |saved| - 1;
      var prefix := saved[..n];
      SweptAgainstAlerts(prefix, cands, pointOk, distance, formatDate, deliver);
      AlertsSnoc(saved, cands, distance, formatDate);
      assert forall i :: 0 <= i < n ==> saved[i] == prefix[i];
    }
  }

  /** The result of the task. */
  datatype TaskResult = Success | Failed

  /**
   * The `CHECK_CONSTRUCTIONS` task body. `entraves` and `impacts` are the
   * fetched `result.records` (`None`: a fetch, a JSON parse or the envelope
   * failed); `savedJson` is the `SAVED_ADDRS` storage entry and `parseSaved`
   * is `JSON.parse` on it (`None`: it throws); `pointOk` is whether
   * `turf.point` accepts an address's coordinates. Any exception gives
   * `Failed`.
   */
  method CheckConstructions<N>(entraves: Option<seq<Obstruction>>, impacts: Option<seq<Impact>>,
                               savedJson: Field,
                               parseSaved: string -> Option<seq<SavedAddress<N>>>,
                               toNumber: Field -> N, parseDate: Field -> Date, now: int,
                               pointOk: Position<N> -> bool,
                               distance: (Position<N>, Position<N>) -> Measure,
                               formatDate: int -> string, deliver: Notification -> bool)
    returns (result: TaskResult, sent: seq<Notification>)
    ensures entraves.None? || impacts.None? ==> result == Failed && sent == []
    ensures entraves.Some? && impacts.Some? && Truthy(savedJson) && parseSaved(savedJson.s).None?
            ==> result == Failed && sent == []
    ensures entraves.Some? && impacts.Some? && !Truthy(savedJson) ==> result == Success && sent == []
    ensures entraves.Some? && impacts.Some? && Truthy(savedJson) && parseSaved(savedJson.s).Some? ==>
              var cands := Candidates(entraves.value, Index(impacts.value, false), toNumber, parseDate, now);
              Sweep(sent, result == Success)
              == Swept(parseSaved(savedJson.s).value, cands, pointOk, distance, formatDate, deliver)
  {
    sent := [];
    if entraves.None? || impacts.None? {
      return Failed, [];
    }
    var impactMap := Index(impacts.value, false);
    var constructions := Candidates(entraves.value, impactMap, toNumber, parseDate, now);
    var saved: seq<SavedAddress<N>>;
    if Truthy(savedJson) {
      match parseSaved(savedJson.s)
      case None =>
        return Failed, [];
      case Some(list) =>
        saved := list;
    } else {
      saved := [];
    }
    var ok;
    ok, sent := NotifySaved(saved, constructions, pointOk, distance, formatDate, deliver);
    result := if ok then Success else Failed;
  }

  /**
   * The `for...of` loop of the task: it hands the notifications to the
   * notifier address by address and stops at the first exception, exactly
   * as `Swept` describes.
   */
  method NotifySaved<N>(saved: seq<SavedAddress<N>>, constructions: seq<Candidate<N>>,
                        pointOk: Position<N> -> bool,
                        distance: (Position<N>, Position<N>) -> Measure,
                        formatDate: int -> string, deliver: Notification -> bool)
    returns (ok: bool, sent: seq<Notification>)
    ensures Sweep(sent, ok) == Swept(saved, constructions, pointOk, distance, formatDate, deliver)
  {
    sent := [];
    var n := 0;
    while n < |saved|
      invariant n <= |saved|
      invariant Swept(saved[..n], constructions, pointOk, distance, formatDate, deliver) == Sweep(sent, true)
    {
      var addr := saved[n];
      assert saved[..n + 1][..n] == saved[..n];
      if !pointOk(addr.coords) {
        SweptStaysFailed(saved, n + 1, constructions, pointOk, distance, formatDate, deliver);
        return false, sent;
      }
      var near := FindNear(constructions, addr.coords, distance, 0);
      match near {
        case Threw(_) =>
          SweptStaysFailed(saved, n + 1, constructions, pointOk, distance, formatDate, deliver);
          return false, sent;
        case NotFound =>
        case Found(j) =>
          var note := NotificationFor(addr, constructions[j], formatDate);
          if !deliver(note) {
            SweptStaysFailed(saved, n + 1, constructions, pointOk, distance, formatDate, deliver);
            return false, sent;
          }
          sent := sent + [note];
      }
      n := n + 1;
    }
    assert saved[..n] == saved;
    ok := true;
  }

  /** Once the task has failed, later addresses change nothing. */
  lemma {:induction false} SweptStaysFailed<N>(saved: seq<SavedAddress<N>>, j: nat,
                                               cands: seq<Candidate<N>>,
                                               pointOk: Position<N> -> bool,
                                               distance: (Position<N>, Position<N>) -> Measure,
                                               formatDate: int -> string, deliver: Notification -> bool)
    requires j <= |saved| && !Swept(saved[..j], cands, pointOk, distance, formatDate, deliver).ok
    ensures Swept(saved, cands, pointOk, distance, formatDate, deliver) == Swept(saved[..j], cands, pointOk, distance, formatDate, deliver)
  {
    if j < |saved| {
      var n := |saved| - 1;
      assert saved[..n][..j] == saved[..j];
      SweptStaysFailed(saved[..n], j, cands, pointOk, distance, formatDate, deliver);
    } else {
      assert saved[..j] == saved;
    }
  }
}
