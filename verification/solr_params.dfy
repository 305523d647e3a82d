/** The outgoing Solr query parameters: the PHP array eZ Find's query builder
    hands to each extended attribute filter before the request is sent. */
module SolrParams {

  /** A value held under one parameter name. */
  datatype Value =
    | Text(s: string)            // a single string parameter such as `sort`
    | List(items: seq<string>)   // a multi-valued parameter such as `fq`
    | Float(literal: string)     // the float PHP's `(float)` cast makes of `literal`

  /** Parameter name to value. PHP's key insertion order is not modelled. */
  type QueryParams = map<string, Value>

  const SfieldKey: string := "sfield"
  const PointKey: string := "pt"
  const SortKey: string := "sort"
  const DistanceKey: string := "d"
  const FilterQueryKey: string := "fq"

  /** The shape the query builder gives `sort` and `fq` when it sets them:
      the sort specification is a string, the filter queries a list. */
  predicate WellShaped(q: QueryParams) {
    && (SortKey in q ==> q[SortKey].Text?)
    && (FilterQueryKey in q ==> q[FilterQueryKey].List?)
  }

  /** The sort specification as string concatenation reads it: PHP reads an
      unset `sort` as null, which concatenates as the empty string. */
  function SortText(q: QueryParams): string
    requires WellShaped(q)
  {
    if SortKey in q then q[SortKey].s else ""
  }

  /** The filter queries, an unset `fq` being the empty list that `[]=` starts from. */
  function FilterQueries(q: QueryParams): seq<string>
    requires WellShaped(q)
  {
    if FilterQueryKey in q then q[FilterQueryKey].items else []
  }

  /** `after` is `before` with exactly the one entry `x` appended at its end. */
  predicate AppendedOne(before: seq<string>, after: seq<string>, x: string) {
    && |after| == |before| + 1
    && after[..|before|] == before
    && after[|before|] == x
  }

  lemma AppendedOneIsAppend(before: seq<string>, after: seq<string>, x: string)
    ensures AppendedOne(before, after, x) <==> after == before + [x]
  {
  }
}
