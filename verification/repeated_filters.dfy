/** The filter applied more than once to the same request, as the host query
    builder does when several `geodist` blocks are declared: every accepted
    block puts one more distance term before the sort specification and
    appends one more filter query, and nothing written earlier is lost. */
module RepeatedFilters {
  import opened Options
  import opened SolrParams
  import opened GeoTerms
  import opened GeoDistFilter

  /** Applies the filter blocks in declaration order, each to the parameters
      the previous one returned. */
  function ApplyAll(q: QueryParams, blocks: seq<FilterParams>, resolve: Resolver): (r: QueryParams)
    requires WellShaped(q)
    ensures WellShaped(r)
    decreases |blocks|
  {
    if |blocks| == 0 then q
    else ApplyAll(Apply(q, blocks[0], resolve), blocks[1..], resolve)
  }

  /** How many of the blocks the filter accepts. */
  function CountAccepted(blocks: seq<FilterParams>, resolve: Resolver): nat {
    if |blocks| == 0 then 0
    else (if Accepted(blocks[0], resolve) then 1 else 0) + CountAccepted(blocks[1..], resolve)
  }

  /** `n` copies of `s`, one after another. */
  function Repeat(s: string, n: nat): string {
    if n == 0 then "" else Repeat(s, n - 1) + s
  }

  /** One application, seen from the accumulated `sort` and `fq`: one entry
      and one distance term more when the block is accepted, nothing at all
      otherwise. */
  function Apply(q: QueryParams, f: FilterParams, resolve: Resolver): (r: QueryParams)
    requires WellShaped(q)
    ensures WellShaped(r)
    ensures var k := if Accepted(f, resolve) then 1 else 0;
            && |FilterQueries(r)| == |FilterQueries(q)| + k
            && FilterQueries(r)[..|FilterQueries(q)|] == FilterQueries(q)
    ensures SortText(r) == if Accepted(f, resolve) then SortPrefix + SortText(q) else SortText(q)
  {
    FilterQueryParams(q, f, resolve).params
  }

  /** Filters compose without overwriting each other: the earlier filter
      queries stay in front, one entry is added per accepted block, and the
      earlier sort specification survives behind one distance term per
      accepted block. */
  lemma {:induction false} ApplyAllAccumulates(q: QueryParams, blocks: seq<FilterParams>, resolve: Resolver)
    requires WellShaped(q)
    ensures |FilterQueries(ApplyAll(q, blocks, resolve))|
            == |FilterQueries(q)| + CountAccepted(blocks, resolve)
    ensures FilterQueries(ApplyAll(q, blocks, resolve))[..|FilterQueries(q)|] == FilterQueries(q)
    ensures SortText(ApplyAll(q, blocks, resolve))
            == Repeat(SortPrefix, CountAccepted(blocks, resolve)) + SortText(q)
    decreases |blocks|
  {
    if |blocks| == 0 {
      assert Repeat(SortPrefix, 0) + SortText(q) == SortText(q);
    } else {
      var q1 := Apply(q, blocks[0], resolve);
      var rest := blocks[1..];
      var r := ApplyAll(q1, rest, resolve);
      assert r == ApplyAll(q, blocks, resolve);
      var k := if Accepted(blocks[0], resolve) then 1 else 0;
      var n := CountAccepted(rest, resolve);
      assert CountAccepted(blocks, resolve) == k + n;
      ApplyAllAccumulates(q1, rest, resolve);
      SortStep(SortPrefix, n, Accepted(blocks[0], resolve), SortText(q), SortText(q1), SortText(r));
      PrefixStep(FilterQueries(q), FilterQueries(q1), FilterQueries(r));
    }
  }

  /** A prefix of a prefix is a prefix. */
  lemma PrefixStep(first: seq<string>, middle: seq<string>, last: seq<string>)
    requires |first| <= |middle| && middle[..|first|] == first
    requires |middle| <= |last| && last[..|middle|] == middle
    ensures last[..|first|] == first
  {
  }

  /** One more block seen from the sort specification: a distance term put
      in front of what the earlier blocks left joins the copies before it. */
  lemma SortStep(p: string, n: nat, accepted: bool, before: string, after: string, total: string)
    requires after == (if accepted then p + before else before)
    requires total == Repeat(p, n) + after
    ensures total == Repeat(p, n + (if accepted then 1 else 0)) + before
  {
  }

  /** The filter is not idempotent: a second application of an accepted
      block prepends the distance term again and appends a second, equal
      filter query. */
  lemma NotIdempotent(q: QueryParams, f: FilterParams, resolve: Resolver)
    requires WellShaped(q)
    requires Accepted(f, resolve)
    ensures var once := FilterQueryParams(q, f, resolve).params;
            var twice := FilterQueryParams(once, f, resolve).params;
            && SortText(twice) == SortPrefix + SortPrefix + SortText(q)
            && |FilterQueries(twice)| == |FilterQueries(q)| + 2
            && FilterQueries(twice)[|FilterQueries(q)|] == FilterQueries(twice)[|FilterQueries(q)| + 1]
            && twice != once
  {
    var once := FilterQueryParams(q, f, resolve).params;
    var twice := FilterQueryParams(once, f, resolve).params;
    assert |FilterQueries(twice)| != |FilterQueries(once)|;
  }
}
