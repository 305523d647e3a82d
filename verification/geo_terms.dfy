/** The strings the geodistance filter writes into the query: the sort
    prefix, the reference point and the two kinds of filter-query entry,
    each with the reader that takes it apart again. */
module GeoTerms {
  import opened Options

  /** Sort term that makes distance from `pt` the primary sort key. */
  const SortPrefix: string := "geodist() asc,"

  /** Local-params opener and closer of the radius filter query. */
  const GeofiltOpen: string := "{!geofilt sfield="
  const GeofiltClose: string := "}"

  /** The fixed range query `[-90,-90 TO 90,90]` appended to the field name
      when no radius is given; its stated purpose is to exclude documents
      that have no location. Both coordinates are bounded by 90, so it is
      not a box around every possible point. */
  const FixedRange: string := ":[-90,-90 TO 90,90]"

  /** The sort specification after the rewrite: `previous` keeps its place
      as secondary sort, after the distance. */
  function GeoSort(previous: string): string {
    SortPrefix + previous
  }

  /** Reads back what follows the distance sort term, if the value starts with it. */
  function SecondarySort(sort: string): Option<string> {
    if |SortPrefix| <= |sort| && sort[..|SortPrefix|] == SortPrefix
    then Some(sort[|SortPrefix|..])
    else None
  }

  lemma SortRoundTrip(previous: string)
    ensures SecondarySort(GeoSort(previous)) == Some(previous)
    ensures |GeoSort(previous)| == |SortPrefix| + |previous|
  {
  }

  /** `pt`: longitude first, then latitude, separated by a comma. */
  function Point(longitude: string, latitude: string): string {
    longitude + "," + latitude
  }

  /** Position of the first comma in `s`, or `|s|` when there is none. */
  function CommaIndex(s: string): (i: nat)
    ensures i <= |s|
    ensures forall j :: 0 <= j < i ==> s[j] != ','
    ensures i < |s| ==> s[i] == ','
    ensures i == |s| <==> ',' !in s
  {
    if |s| == 0 then 0
    else if s[0] == ',' then 0
    else 1 + CommaIndex(s[1..])
  }

  /** Reads a point back as (longitude, latitude), splitting at the first comma. */
  function SplitPoint(pt: string): (r: Option<(string, string)>)
    ensures r.Some? <==> ',' in pt
    ensures r.Some? ==> ',' !in r.value.0 && Point(r.value.0, r.value.1) == pt
  {
    var i := CommaIndex(pt);
    if i < |pt| then
      assert pt == pt[..i] + "," + pt[i + 1..];
      Some((pt[..i], pt[i + 1..]))
    else None
  }

  /** The point reads back as the coordinates it was built from exactly when
      the longitude holds no comma of its own. */
  lemma PointRoundTrip(longitude: string, latitude: string)
    ensures SplitPoint(Point(longitude, latitude)) == Some((longitude, latitude))
            <==> ',' !in longitude
  {
    var pt := Point(longitude, latitude);
    if ',' !in longitude {
      var i := CommaIndex(pt);
      assert pt[|longitude|] == ',';
      assert i == |longitude|;
      assert pt[..i] == longitude;
      assert pt[i + 1..] == latitude;
    }
  }

  /** The two kinds of filter-query entry the filter appends. */
  datatype TermKind =
    | Geofilt    // keep documents within the radius `d` of `pt`
    | Bounding   // the fixed range query on the field, meant to exclude unlocated documents

  /** The filter-query entry of the given kind for a resolved field name. */
  function Term(kind: TermKind, field: string): string {
    match kind
    case Geofilt => GeofiltOpen + field + GeofiltClose
    case Bounding => field + FixedRange
  }

  /** Reads the kind and field name back out of a filter-query entry. */
  function ParseTerm(t: string): Option<(TermKind, string)> {
    if |GeofiltOpen| + |GeofiltClose| <= |t|
       && t[..|GeofiltOpen|] == GeofiltOpen
       && t[|t| - |GeofiltClose|..] == GeofiltClose
    then Some((Geofilt, t[|GeofiltOpen|..|t| - |GeofiltClose|]))
    else if |FixedRange| <= |t| && t[|t| - |FixedRange|..] == FixedRange
    then Some((Bounding, t[..|t| - |FixedRange|]))
    else None
  }

  /** Every entry the filter writes names its kind and field unambiguously,
      whatever characters the field name holds. */
  lemma {:induction false} TermRoundTrip(kind: TermKind, field: string)
    ensures ParseTerm(Term(kind, field)) == Some((kind, field))
  {
    var t := Term(kind, field);
    match kind
    case Geofilt =>
      assert t[..|GeofiltOpen|] == GeofiltOpen;
      assert t[|t| - |GeofiltClose|..] == GeofiltClose;
      assert t[|GeofiltOpen|..|t| - |GeofiltClose|] == field;
    case Bounding =>
      assert t[|t| - 1] == ']';
      assert t[|t| - |FixedRange|..] == FixedRange;
      assert t[..|t| - |FixedRange|] == field;
  }

  /** Different kinds or different fields never produce the same entry. */
  lemma TermInjective(k1: TermKind, f1: string, k2: TermKind, f2: string)
    ensures Term(k1, f1) == Term(k2, f2) <==> k1 == k2 && f1 == f2
  {
    TermRoundTrip(k1, f1);
    TermRoundTrip(k2, f2);
  }
}
