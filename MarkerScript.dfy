/**
 * The earlier variant in `components/ExternalLink.tsx`: the same join, kept
 * as the obstruction record with its impact attached, and the Leaflet script
 * text `markersJS` with one marker snippet per joined record.
 */
module MarkerScript {
  import opened Values
  import opened Records
  import opened Enrichment

  /** `{ ...e, impact }`: the obstruction's own fields plus its matched impact. */
  datatype Tagged = Tagged(entrave: Obstruction, impact: Impact)

  /** `enriched`: the join, keeping each surviving obstruction whole. */
  function Enrich(entraves: seq<Obstruction>, impactMap: map<Field, Impact>): seq<Tagged>
  {
    Join(entraves, impactMap, (e, imp) => Tagged(e, imp))
  }

  /**
   * Each kept record is a surviving obstruction, unchanged, in obstruction
   * order, together with exactly the impact the lookup holds for its id:
   * the last impact whose truthy `id_request` equals that id.
   */
  lemma EnrichTagsLastImpact(entraves: seq<Obstruction>, impacts: seq<Impact>)
    ensures |Enrich(entraves, Index(impacts, true))| == |Survivors(entraves, Index(impacts, true))|
    ensures forall k :: 0 <= k < |Survivors(entraves, Index(impacts, true))| ==>
              var i := Survivors(entraves, Index(impacts, true))[k];
              && Enrich(entraves, Index(impacts, true))[k].entrave == entraves[i]
              && Truthy(entraves[i].latitude) && Truthy(entraves[i].longitude)
              && Truthy(entraves[i].id)
              && (exists j :: 0 <= j < |impacts| && impacts[j].idRequest == entraves[i].id
                    && Enrich(entraves, Index(impacts, true))[k].impact == impacts[j]
                    && forall l :: j < l < |impacts| ==> impacts[l].idRequest != impacts[j].idRequest)
  {
    var impactMap := Index(impacts, true);
    var survivors := Survivors(entraves, impactMap);
    JoinBySurvivors(entraves, impactMap, (e, imp) => Tagged(e, imp));
    forall k | 0 <= k < |survivors|
      ensures Truthy(entraves[survivors[k]].id)
      ensures exists j :: 0 <= j < |impacts| && impacts[j].idRequest == entraves[survivors[k]].id
                 && Enrich(entraves, impactMap)[k].impact == impacts[j]
                 && forall l :: j < l < |impacts| ==> impacts[l].idRequest != impacts[j].idRequest
    {
      var key := entraves[survivors[k]].id;
      IndexKeys(impacts, true, key);
      var j := LastWith(impacts, key);
      IndexLastWins(impacts, true, j);
    }
  }

  /** The position of the last impact carrying `key`, which some impact does. */
  function LastWith(impacts: seq<Impact>, key: Field): (j: nat)
    requires exists j :: 0 <= j < |impacts| && impacts[j].idRequest == key
    ensures j < |impacts| && impacts[j].idRequest == key
    ensures forall l :: j < l < |impacts| ==> impacts[l].idRequest != key
  {
    var n := |impacts| - 1;
    if impacts[n].idRequest == key then n
    else
      var j :| 0 <= j < |impacts| && impacts[j].idRequest == key;
      assert impacts[..n][j] == impacts[j];
      LastWith(impacts[..n], key)
  }

  // ---------------------------------------------------------------------
  // The script text
  // ---------------------------------------------------------------------

  /** The fixed pieces of a popup around its three fields. */
  const PopupOpen: string := "\n            <strong>"
  const ImpactLabel: string := "</strong><br/>\n            Impact: "
  const StreetLabel: string := "<br/>\n            Street: "
  const PopupClose: string := "\n          "

  /** The popup of one marker: reason category, street impact type, street name. */
  function PopupHtml(t: Tagged): string
  {
    PopupOpen + (Text(t.entrave.reasonCategory) + (ImpactLabel + (Text(t.impact.streetImpactType)
    + (StreetLabel + (Text(t.impact.name) + PopupClose)))))
  }

  /** The popup shows the obstruction's reason category in bold first. */
  lemma PopupReason(t: Tagged)
    ensures PartAt(PopupHtml(t), Text(t.entrave.reasonCategory), |PopupOpen|)
  {
    SecondOfSeven(PopupOpen, Text(t.entrave.reasonCategory), ImpactLabel, Text(t.impact.streetImpactType),
                  StreetLabel, Text(t.impact.name), PopupClose);
  }

  /** ... then, after `Impact: `, the street impact type of the matched impact ... */
  lemma PopupImpact(t: Tagged)
    ensures PartAt(PopupHtml(t), Text(t.impact.streetImpactType),
                   |PopupOpen| + |Text(t.entrave.reasonCategory)| + |ImpactLabel|)
  {
    FourthOfSeven(PopupOpen, Text(t.entrave.reasonCategory), ImpactLabel, Text(t.impact.streetImpactType),
                  StreetLabel, Text(t.impact.name), PopupClose);
  }

  /** ... and, after `Street: `, its street name. */
  lemma PopupStreet(t: Tagged)
    ensures PartAt(PopupHtml(t), Text(t.impact.name),
                   |PopupOpen| + |Text(t.entrave.reasonCategory)| + |ImpactLabel|
                   + |Text(t.impact.streetImpactType)| + |StreetLabel|)
  {
    SixthOfSeven(PopupOpen, Text(t.entrave.reasonCategory), ImpactLabel, Text(t.impact.streetImpactType),
                 StreetLabel, Text(t.impact.name), PopupClose);
  }

  /** The fixed pieces of a marker snippet around its coordinates and popup. */
  const MarkerOpen: string := "L.marker(["
  const CoordSep: string := ", "
  const BindOpen: string := "])\n            .bindPopup(`"
  const BindClose: string := "`)\n            .addTo(map);"

  /** One `L.marker([latitude, longitude]).bindPopup(...).addTo(map);` snippet. */
  function Snippet(t: Tagged): string
  {
    MarkerOpen + (Text(t.entrave.latitude) + (CoordSep + (Text(t.entrave.longitude)
    + (BindOpen + (PopupHtml(t) + BindClose)))))
  }

  /** `a` lies at the start of `a + b`. */
  lemma Front(a: string, b: string)
    ensures PartAt(a + b, a, 0)
  {
    assert (a + b)[..|a|] == a;
  }

  /** Whatever lies in `b` lies in `a + b`, moved by the length of `a`. */
  lemma Shift(a: string, b: string, part: string, at: nat)
    requires PartAt(b, part, at)
    ensures PartAt(a + b, part, |a| + at)
  {
    assert (a + b)[|a| + at..|a| + at + |part|] == b[at..at + |part|];
  }

  /**
   * A snippet places its marker at `[latitude, longitude]`, latitude first,
   * as Leaflet expects: the latitude right after the opening `L.marker([`.
   */
  lemma SnippetLatitude(t: Tagged)
    ensures PartAt(Snippet(t), Text(t.entrave.latitude), |MarkerOpen|)
  {
    SecondOfSeven(MarkerOpen, Text(t.entrave.latitude), CoordSep, Text(t.entrave.longitude),
                  BindOpen, PopupHtml(t), BindClose);
  }

  /** ... then `, ` and the longitude. */
  lemma SnippetLongitude(t: Tagged)
    ensures PartAt(Snippet(t), Text(t.entrave.longitude),
                   |MarkerOpen| + |Text(t.entrave.latitude)| + |CoordSep|)
  {
    FourthOfSeven(MarkerOpen, Text(t.entrave.latitude), CoordSep, Text(t.entrave.longitude),
                  BindOpen, PopupHtml(t), BindClose);
  }

  /** ... and the popup text right after `.bindPopup(`. */
  lemma SnippetPopup(t: Tagged)
    ensures PartAt(Snippet(t), PopupHtml(t),
                   |MarkerOpen| + |Text(t.entrave.latitude)| + |CoordSep|
                   + |Text(t.entrave.longitude)| + |BindOpen|)
  {
    SixthOfSeven(MarkerOpen, Text(t.entrave.latitude), CoordSep, Text(t.entrave.longitude),
                 BindOpen, PopupHtml(t), BindClose);
  }

  /** The second of seven right-nested pieces lies after the first. */
  lemma SecondOfSeven(a: string, b: string, c: string, d: string, e: string, f: string, g: string)
    ensures PartAt(a + (b + (c + (d + (e + (f + g))))), b, |a|)
  {
    Front(b, c + (d + (e + (f + g))));
    Shift(a, b + (c + (d + (e + (f + g)))), b, 0);
  }

  /** The fourth of seven right-nested pieces lies after the first three. */
  lemma FourthOfSeven(a: string, b: string, c: string, d: string, e: string, f: string, g: string)
    ensures PartAt(a + (b + (c + (d + (e + (f + g))))), d, |a| + |b| + |c|)
  {
    Front(d, e + (f + g));
    Shift(c, d + (e + (f + g)), d, 0);
    Shift(b, c + (d + (e + (f + g))), d, |c|);
    Shift(a, b + (c + (d + (e + (f + g)))), d, |b| + |c|);
  }

  /** The sixth of seven right-nested pieces lies after the first five. */
  lemma SixthOfSeven(a: string, b: string, c: string, d: string, e: string, f: string, g: string)
    ensures PartAt(a + (b + (c + (d + (e + (f + g))))), f, |a| + |b| + |c| + |d| + |e|)
  {
    Front(f, g);
    Shift(e, f + g, f, 0);
    Shift(d, e + (f + g), f, |e|);
    Shift(c, d + (e + (f + g)), f, |d| + |e|);
    Shift(b, c + (d + (e + (f + g))), f, |c| + |d| + |e|);
    Shift(a, b + (c + (d + (e + (f + g)))), f, |b| + |c| + |d| + |e|);
  }

  /** `parts.join(sep)`. */
  function JoinLines(parts: seq<string>, sep: string): string
  {
    if |parts| == 0 then ""
    else if |parts| == 1 then parts[0]
    else JoinLines(parts[..|parts| - 1], sep) + sep + parts[|parts| - 1]
  }

  /** Where the k-th part starts in the joined text. */
  function Offset(parts: seq<string>, sep: string, k: nat): nat
    requires k <= |parts|
  {
    if k == 0 then 0 else Offset(parts, sep, k - 1) + |parts[k - 1]| + |sep|
  }

  /** Where the k-th part ends in the joined text. */
  function End(parts: seq<string>, sep: string, k: nat): nat
    requires k < |parts|
  {
    Offset(parts, sep, k) + |parts[k]|
  }

  lemma {:induction false} OffsetPrefix(parts: seq<string>, sep: string, n: nat, k: nat)
    requires k <= n <= |parts|
    ensures Offset(parts[..n], sep, k) == Offset(parts, sep, k)
  {
    if k > 0 {
      OffsetPrefix(parts, sep, n, k - 1);
      assert parts[..n][k - 1] == parts[k - 1];
    }
  }

  /** The joined text ends where a separator after the last part would begin. */
  lemma {:induction false} JoinLength(parts: seq<string>, sep: string)
    requires |parts| > 0
    ensures |JoinLines(parts, sep)| + |sep| == Offset(parts, sep, |parts|)
  {
    var n := |parts| - 1;
    if n > 0 {
      JoinLength(parts[..n], sep);
      OffsetPrefix(parts, sep, n, n);
    }
  }

  /** The k-th part occupies the joined text from its offset on. */
  lemma {:induction false} JoinPart(parts: seq<string>, sep: string, k: nat)
    requires k < |parts|
    ensures Offset(parts, sep, k) + |parts[k]| <= |JoinLines(parts, sep)|
    ensures JoinLines(parts, sep)[Offset(parts, sep, k)..Offset(parts, sep, k) + |parts[k]|] == parts[k]
  {
    var n := |parts| - 1;
    if n > 0 {
      var prefix := parts[..n];
      var pre := JoinLines(prefix, sep);
      JoinLength(prefix, sep);
      OffsetPrefix(parts, sep, n, n);
      if k < n {
        JoinPart(prefix, sep, k);
        OffsetPrefix(parts, sep, n, k);
        assert prefix[k] == parts[k];
        SliceOfConcat(pre, sep + parts[n], Offset(parts, sep, k), Offset(parts, sep, k) + |parts[k]|);
      } else {
        assert JoinLines(parts, sep) == (pre + sep) + parts[n];
      }
    }
  }

  /** Between the k-th and the next part lies exactly one separator. */
  lemma {:induction false} JoinSep(parts: seq<string>, sep: string, k: nat)
    requires k + 1 < |parts|
    ensures Offset(parts, sep, k) + |parts[k]| + |sep| == Offset(parts, sep, k + 1)
    ensures Offset(parts, sep, k + 1) <= |JoinLines(parts, sep)|
    ensures JoinLines(parts, sep)[Offset(parts, sep, k) + |parts[k]|..Offset(parts, sep, k + 1)] == sep
  {
    var n := |parts| - 1;
    var prefix := parts[..n];
    var pre := JoinLines(prefix, sep);
    JoinLength(prefix, sep);
    OffsetPrefix(parts, sep, n, n);
    if k + 1 < n {
      JoinSep(prefix, sep, k);
      OffsetPrefix(parts, sep, n, k);
      OffsetPrefix(parts, sep, n, k + 1);
      assert prefix[k] == parts[k];
      SliceOfConcat(pre, sep + parts[n], Offset(parts, sep, k) + |parts[k]|, Offset(parts, sep, k + 1));
    } else {
      assert prefix[k] == parts[k];
      OffsetPrefix(parts, sep, n, k);
      assert JoinLines(parts, sep) == pre + (sep + parts[n]);
    }
  }

  lemma SliceOfConcat(a: string, b: string, i: nat, j: nat)
    requires i <= j <= |a|
    ensures (a + b)[i..j] == a[i..j]
  {
  }

  /** The snippets of the enriched records, in record order. */
  function Snippets(enriched: seq<Tagged>): (r: seq<string>)
    ensures |r| == |enriched|
  {
    seq(|enriched|, k requires 0 <= k < |enriched| => Snippet(enriched[k]))
  }

  /** The separator between two marker snippets. */
  const LineFeed: string := "\n"

  /** `markersJS`: the snippets joined with line feeds. */
  function MarkersJs(enriched: seq<Tagged>): string
  {
    JoinLines(Snippets(enriched), LineFeed)
  }

  /** `text` holds `part` starting at position `at`. */
  predicate PartAt(text: string, part: string, at: nat)
  {
    at + |part| <= |text| && text[at..at + |part|] == part
  }

  /** Every part lies at its offset in the joined text. */
  lemma JoinParts(parts: seq<string>, sep: string)
    ensures forall k :: 0 <= k < |parts| ==>
              PartAt(JoinLines(parts, sep), parts[k], Offset(parts, sep, k))
  {
    forall k | 0 <= k < |parts|
      ensures PartAt(JoinLines(parts, sep), parts[k], Offset(parts, sep, k))
    {
      JoinPart(parts, sep, k);
    }
  }

  /**
   * The separator follows every part but the last. Since each offset is the
   * previous one plus that part and the separator, nothing else lies
   * between two parts.
   */
  lemma JoinSeps(parts: seq<string>, sep: string)
    ensures forall k :: 0 <= k < |parts| - 1 ==> PartAt(JoinLines(parts, sep), sep, End(parts, sep, k))
  {
    forall k | 0 <= k < |parts| - 1
      ensures PartAt(JoinLines(parts, sep), sep, End(parts, sep, k))
    {
      JoinSep(parts, sep, k);
    }
  }

  /**
   * `markersJS` holds exactly one snippet per enriched record, the k-th at
   * its offset, in record order, with a line feed between two consecutive
   * snippets (an offset is the previous offset, plus the previous snippet,
   * plus one).
   */
  lemma MarkersJsLayout(enriched: seq<Tagged>)
    ensures |enriched| == 0 ==> MarkersJs(enriched) == ""
    ensures |enriched| > 0 ==> |MarkersJs(enriched)| + 1 == Offset(Snippets(enriched), LineFeed, |enriched|)
    ensures forall k :: 0 <= k < |enriched| ==>
              PartAt(MarkersJs(enriched), Snippet(enriched[k]), Offset(Snippets(enriched), LineFeed, k))
    ensures forall k :: 0 <= k < |enriched| - 1 ==>
              PartAt(MarkersJs(enriched), LineFeed, End(Snippets(enriched), LineFeed, k))
  {
    var parts := Snippets(enriched);
    assert MarkersJs(enriched) == JoinLines(parts, LineFeed);
    if |enriched| > 0 {
      JoinLength(parts, LineFeed);
    }
    JoinParts(parts, LineFeed);
    JoinSeps(parts, LineFeed);
  }

  /**
   * The script-building part of the page: fill the lookup in place, skipping
   * falsy keys, join, and render `markersJS`.
   */
  method BuildMarkersJs(entraves: seq<Obstruction>, impacts: seq<Impact>) returns (markersJS: string)
    ensures markersJS == MarkersJs(Enrich(entraves, Index(impacts, true)))
  {
    var impactMap := BuildImpactMap(impacts);
    markersJS := MarkersJs(Enrich(entraves, impactMap));
  }
}
