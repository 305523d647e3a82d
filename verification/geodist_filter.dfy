/** The `geodist` extended attribute filter of eZ Find: validates the filter
    parameters, resolves the logical field name and rewrites the Solr query
    parameters to sort by distance and filter by location. */
module GeoDistFilter {
  import opened Options
  import opened SolrParams
  import opened GeoTerms

  /** A filter parameter value as the template passes it; `Null` is PHP null. */
  datatype Arg = Null | Given(text: string)

  type FilterParams = map<string, Arg>

  /** PHP `isset`: the key is present and its value is not null. */
  predicate IsSet(f: FilterParams, key: string) {
    key in f && f[key].Given?
  }

  const FieldArg: string := "field"
  const LatitudeArg: string := "latitude"
  const LongitudeArg: string := "longitude"
  const RadiusArg: string := "d"

  /** The required filter parameters, in the order they are checked. */
  const Required: seq<string> := [FieldArg, LatitudeArg, LongitudeArg]

  /** The filter parameters once validated. */
  datatype Request = Request(field: string, latitude: string, longitude: string, radius: Option<string>)

  /** What the catch block logs: a missing parameter, or the field-name
      lookup failing with its own message. */
  datatype GeoError = MissingParameter(name: string) | ResolutionFailed(reason: string)

  /** The warning text written to the debug log. */
  function Message(e: GeoError): string {
    match e
    case MissingParameter(name) => "Missing filter parameter \"" + name + "\""
    case ResolutionFailed(reason) => reason
  }

  /** `eZSolr::getFieldName`: logical attribute identifier to indexed field
      name, or the message of the exception it throws. */
  type Resolver = string -> Result<string, string>

  /** Presence checks of `field`, `latitude`, `longitude`, in that order; the
      first missing one is reported. `d` is optional. */
  function Validate(f: FilterParams): (r: Result<Request, GeoError>)
    ensures r.Ok? <==> IsSet(f, FieldArg) && IsSet(f, LatitudeArg) && IsSet(f, LongitudeArg)
    ensures forall i :: 0 <= i < |Required| ==>
              (r == Err(MissingParameter(Required[i]))
               <==> !IsSet(f, Required[i]) && forall j :: 0 <= j < i ==> IsSet(f, Required[j]))
    ensures r.Err? ==> exists i :: 0 <= i < |Required| && r.error == MissingParameter(Required[i])
    ensures r.Ok? ==> && r.value.field == f[FieldArg].text
                      && r.value.latitude == f[LatitudeArg].text
                      && r.value.longitude == f[LongitudeArg].text
                      && (r.value.radius.Some? <==> IsSet(f, RadiusArg))
                      && (IsSet(f, RadiusArg) ==> r.value.radius.value == f[RadiusArg].text)
  {
    // The three key names differ (their lengths do), so each error names one key.
    assert |FieldArg| < |LatitudeArg| < |LongitudeArg|;
    assert Required[0] == FieldArg && Required[1] == LatitudeArg && Required[2] == LongitudeArg;
    if !IsSet(f, FieldArg) then Err(MissingParameter(FieldArg))
    else if !IsSet(f, LatitudeArg) then Err(MissingParameter(LatitudeArg))
    else if !IsSet(f, LongitudeArg) then Err(MissingParameter(LongitudeArg))
    else
      var radius := if IsSet(f, RadiusArg) then Some(f[RadiusArg].text) else None;
      Ok(Request(f[FieldArg].text, f[LatitudeArg].text, f[LongitudeArg].text, radius))
  }

  /** Field-name resolution, its failure becoming a `ResolutionFailed`. */
  function Resolve(resolve: Resolver, field: string): Result<string, GeoError> {
    match resolve(field)
    case Ok(name) => Ok(name)
    case Err(reason) => Err(ResolutionFailed(reason))
  }

  /** The entry kind appended to `fq`: the radius filter when `d` is given,
      the fixed range query otherwise. */
  function KindFor(req: Request): TermKind {
    if req.radius.Some? then Geofilt else Bounding
  }

  /** The parameter names the rewrite writes. */
  function Touched(req: Request): set<string> {
    {SfieldKey, PointKey, SortKey, FilterQueryKey} + (if req.radius.Some? then {DistanceKey} else {})
  }

  /** The successful rewrite of `q` into `r`, stated key by key: `sfield` and
      `pt` set, the distance put first in `sort`, one entry appended to `fq`,
      `d` copied when given, and every other parameter left as it was. */
  ghost predicate GeoRewrite(q: QueryParams, r: QueryParams, req: Request, fieldName: string)
    requires WellShaped(q)
  {
    && WellShaped(r)
    && r.Keys == q.Keys + Touched(req)
    && (forall k :: k in q && k !in Touched(req) ==> r[k] == q[k])
    && r[SfieldKey] == Text(fieldName)
    && r[PointKey] == Text(Point(req.longitude, req.latitude))
    && SortText(r) == GeoSort(SortText(q))
    && AppendedOne(FilterQueries(q), FilterQueries(r), Term(KindFor(req), fieldName))
    && (req.radius.Some? ==> r[DistanceKey] == Float(req.radius.value))
  }

  /** The writes of the try block, in the source's order. */
  function Rewrite(q: QueryParams, req: Request, fieldName: string): (r: QueryParams)
    requires WellShaped(q)
    ensures GeoRewrite(q, r, req, fieldName)
  {
    var placed := q[SfieldKey := Text(fieldName)]
                   [PointKey := Text(Point(req.longitude, req.latitude))]
                   [SortKey := Text(GeoSort(SortText(q)))];
    match req.radius
    case Some(d) =>
      placed[DistanceKey := Float(d)]
            [FilterQueryKey := List(FilterQueries(q) + [Term(Geofilt, fieldName)])]
    case None =>
      placed[FilterQueryKey := List(FilterQueries(q) + [Term(Bounding, fieldName)])]
  }

  /** The key-by-key statement pins down a single parameter map. */
  lemma {:induction false} GeoRewriteUnique(q: QueryParams, r1: QueryParams, r2: QueryParams,
                                            req: Request, fieldName: string)
    requires WellShaped(q)
    requires GeoRewrite(q, r1, req, fieldName)
    requires GeoRewrite(q, r2, req, fieldName)
    ensures r1 == r2
  {
    var fq := FilterQueries(q);
    var t := Term(KindFor(req), fieldName);
    AppendedOneIsAppend(fq, FilterQueries(r1), t);
    AppendedOneIsAppend(fq, FilterQueries(r2), t);
    forall k | k in r1
      ensures r1[k] == r2[k]
    {
      if k == SortKey {
        assert r1[k] == Text(SortText(r1));
      } else if k == FilterQueryKey {
        assert r1[k] == List(FilterQueries(r1));
        assert r2[k] == List(FilterQueries(r2));
      }
    }
  }

  /** The try block: validation, resolution, then the writes. Every point
      that can fail comes before the first write. */
  function TryFilter(q: QueryParams, f: FilterParams, resolve: Resolver): Result<QueryParams, GeoError>
    requires WellShaped(q)
  {
    var req :- Validate(f);
    var fieldName :- Resolve(resolve, req.field);
    Ok(Rewrite(q, req, fieldName))
  }

  /** The returned parameters, and the warning logged if the try block failed. */
  datatype Filtered = Filtered(params: QueryParams, warning: Option<GeoError>)

  /** The filter succeeds exactly when the three required parameters are set
      and the field name resolves. */
  predicate Accepted(f: FilterParams, resolve: Resolver) {
    IsSet(f, FieldArg) && IsSet(f, LatitudeArg) && IsSet(f, LongitudeArg)
    && resolve(f[FieldArg].text).Ok?
  }

  /** The validated request, when the required parameters are present. */
  function RequestOf(f: FilterParams): Request
    requires IsSet(f, FieldArg) && IsSet(f, LatitudeArg) && IsSet(f, LongitudeArg)
  {
    Validate(f).value
  }

  /** `filterQueryParams`: on success the rewritten parameters; on any
      failure a warning and the parameters exactly as they came in. */
  function FilterQueryParams(q: QueryParams, f: FilterParams, resolve: Resolver): (r: Filtered)
    requires WellShaped(q)
    ensures WellShaped(r.params)
    ensures r.warning.None? <==> Accepted(f, resolve)
    ensures r.warning.Some? ==> r.params == q
    ensures r.warning == Some(MissingParameter(FieldArg)) <==> !IsSet(f, FieldArg)
    ensures r.warning == Some(MissingParameter(LatitudeArg))
            <==> IsSet(f, FieldArg) && !IsSet(f, LatitudeArg)
    ensures r.warning == Some(MissingParameter(LongitudeArg))
            <==> IsSet(f, FieldArg) && IsSet(f, LatitudeArg) && !IsSet(f, LongitudeArg)
    ensures (r.warning.Some? && r.warning.value.ResolutionFailed?)
            <==> && IsSet(f, FieldArg) && IsSet(f, LatitudeArg) && IsSet(f, LongitudeArg)
                 && resolve(f[FieldArg].text).Err?
    ensures r.warning.Some? && r.warning.value.ResolutionFailed? ==>
              r.warning.value.reason == resolve(f[FieldArg].text).error
    ensures Accepted(f, resolve) ==>
              GeoRewrite(q, r.params, RequestOf(f), resolve(f[FieldArg].text).value)
  {
    match TryFilter(q, f, resolve)
    case Ok(rewritten) => Filtered(rewritten, None)
    case Err(e) => Filtered(q, Some(e))
  }
}
