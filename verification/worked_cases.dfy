/** The filter on the inputs of its usage comment, for any field-name lookup
    that maps `article/location` to some indexed field name. */
module WorkedCases {
  import opened Options
  import opened SolrParams
  import opened GeoTerms
  import opened GeoDistFilter

  function UsageParams(withRadius: bool): FilterParams {
    var base := map[FieldArg := Given("article/location"),
                    LatitudeArg := Given("46.75984"),
                    LongitudeArg := Given("1.738281")];
    if withRadius then base[RadiusArg := Given("1")] else base
  }

  lemma UsageValidates(withRadius: bool)
    ensures Validate(UsageParams(withRadius))
            == Ok(Request("article/location", "46.75984", "1.738281",
                          if withRadius then Some("1") else None))
  {
  }

  /** With a radius: point longitude first, distance sort on an empty sort,
      `d` copied and the single radius filter query. */
  lemma UsageWithRadius(resolve: Resolver, fieldName: string)
    requires resolve("article/location") == Ok(fieldName)
    ensures FilterQueryParams(map[SortKey := Text("")], UsageParams(true), resolve)
            == Filtered(map[SortKey := Text("geodist() asc,"),
                            SfieldKey := Text(fieldName),
                            PointKey := Text("1.738281,46.75984"),
                            DistanceKey := Float("1"),
                            FilterQueryKey := List(["{!geofilt sfield=" + fieldName + "}"])],
                        None)
  {
    var q := map[SortKey := Text("")];
    var f := UsageParams(true);
    var req := Request("article/location", "46.75984", "1.738281", Some("1"));
    UsageValidates(req.radius.Some?);
    assert Resolve(resolve, req.field) == Ok(fieldName);
    assert GeoSort("") == "geodist() asc,";
    assert Point("1.738281", "46.75984") == "1.738281,46.75984";
    assert Term(Geofilt, fieldName) == "{!geofilt sfield=" + fieldName + "}";
    var r := Rewrite(q, req, fieldName);
    assert r == q[SfieldKey := Text(fieldName)][PointKey := Text("1.738281,46.75984")]
                 [SortKey := Text("geodist() asc,")][DistanceKey := Float("1")]
                 [FilterQueryKey := List(["{!geofilt sfield=" + fieldName + "}"])];
    assert TryFilter(q, f, resolve) == Ok(r);
  }

  /** Without a radius: the fixed range filter query, and no `d`. */
  lemma UsageWithoutRadius(resolve: Resolver, fieldName: string)
    requires resolve("article/location") == Ok(fieldName)
    ensures FilterQueryParams(map[SortKey := Text("price asc")], UsageParams(false), resolve)
            == Filtered(map[SortKey := Text("geodist() asc,price asc"),
                            SfieldKey := Text(fieldName),
                            PointKey := Text("1.738281,46.75984"),
                            FilterQueryKey := List([fieldName + ":[-90,-90 TO 90,90]"])],
                        None)
  {
    var q := map[SortKey := Text("price asc")];
    var f := UsageParams(false);
    var req := Request("article/location", "46.75984", "1.738281", None);
    UsageValidates(req.radius.Some?);
    assert Resolve(resolve, req.field) == Ok(fieldName);
    assert GeoSort("price asc") == "geodist() asc,price asc";
    assert Point("1.738281", "46.75984") == "1.738281,46.75984";
    assert Term(Bounding, fieldName) == fieldName + ":[-90,-90 TO 90,90]";
    var r := Rewrite(q, req, fieldName);
    assert r == q[SfieldKey := Text(fieldName)][PointKey := Text("1.738281,46.75984")]
                 [SortKey := Text("geodist() asc,price asc")]
                 [FilterQueryKey := List([fieldName + ":[-90,-90 TO 90,90]"])];
    assert TryFilter(q, f, resolve) == Ok(r);
  }

  /** A missing latitude is logged and the parameters come back untouched. */
  lemma UsageMissingLatitude(resolve: Resolver, q: QueryParams)
    requires WellShaped(q)
    ensures var r := FilterQueryParams(q, UsageParams(true) - {LatitudeArg}, resolve);
            && r == Filtered(q, Some(MissingParameter(LatitudeArg)))
            && Message(r.warning.value) == "Missing filter parameter \"latitude\""
  {
  }
}
