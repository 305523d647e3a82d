# eZ Find geodistance filter, modelled in Dafny

eZ Find lets a search template declare *extended attribute filters*. The
`geodist` filter (`eZFindGeoDistExtendedAttributeFilter::filterQueryParams`)
receives the outgoing Solr query parameters and the filter's own parameters:
`field`, `latitude` and `longitude`, which are required, and `d`, which is optional.
It returns the query parameters rewritten to sort by distance from the given point.
It also adds one filter query: a radius filter when `d` is given, otherwise a
fixed range query `F:[-90,-90 TO 90,90]` on the resolved field F, whose stated purpose is to exclude documents without a location.

The model is functional:

- `SolrParams` holds the query parameters, a map from parameter name to value
  (string, list of strings, or the float made of a radius). It also says how `sort` and `fq`
  are read when unset.
- `GeoTerms` holds the exact strings written: the `geodist() asc,` sort prefix,
  the `pt` point (longitude first), and the two `fq` entry shapes. Each has a reader that
  takes it apart again, with a round-trip lemma.
- `GeoDistFilter` holds the function itself. `Validate` checks presence in the source's order.
  `Resolve` is the field-name lookup. `Rewrite` makes the writes. `FilterQueryParams` is
  the catch-and-return wrapper. `GeoRewrite` states the successful rewrite key by key,
  and `GeoRewriteUnique` shows that this statement determines the result completely.
- `RepeatedFilters` applies the filter to one request several times, in declaration order.
  Filters compose by appending, and the filter is not idempotent.
- `WorkedCases` works through the inputs of the class's usage comment.

`eZSolr::getFieldName` is a parameter of type `Resolver` that either yields
a field name or fails with a message. The debug-log warning is returned as
the `warning` field of the result. Its text is given by `Message`.

Two consequences of the code are worth stating:

- A failure returns the input exactly. Every throw comes before the first write (line 61): the presence checks at lines 45, 50 and 55, and anything `getFieldName` throws at line 58. The array is also passed by value. `FilterQueryParams` states this.
- When `d` is not given, a `d` already in the query parameters is left as it was. The frame condition of `GeoRewrite` says so.

## Model

| member | source | states |
|---|---|---|
| GeoDistFilter.Validate | classes/extendedattributefilters/ezfindgeodistextendedattributefilter.php:43-56 | Succeeds exactly when `field`, `latitude` and `longitude` are all set (PHP `isset`: present and not null). Otherwise it reports the first missing one in that order: key i is reported iff it is unset and every earlier key is set. On success it carries the three texts and `d` when set. |
| GeoDistFilter.Rewrite | classes/extendedattributefilters/ezfindgeodistextendedattributefilter.php:60-77 | The writes produce a map meeting `GeoRewrite`. `sfield` is the resolved name. `pt` is longitude, comma, latitude. `sort` is `geodist() asc,` before the old sort, with unset read as empty. `fq` is the old list plus exactly one entry: the geofilt entry when `d` is given, the fixed range query otherwise. `d` is copied when given. The key set grows by exactly the written keys, and every other key keeps its value. |
| GeoDistFilter.GeoRewriteUnique | classes/extendedattributefilters/ezfindgeodistextendedattributefilter.php:61-76 | Any two parameter maps that both meet the key-by-key rewrite statement for the same input are equal, so the statement fixes every key of the result. |
| GeoDistFilter.FilterQueryParams | classes/extendedattributefilters/ezfindgeodistextendedattributefilter.php:39-85 | No warning exactly when the three parameters are set and the field resolves. On any warning the returned parameters equal the input. The warning names `field`, `latitude` or `longitude` exactly when that is the first one missing, and is a resolution error, carrying the lookup's own message, exactly when all are set but the lookup fails. On success the result meets the key-by-key rewrite statement with the resolved name. The result keeps the sort and fq shapes. |
| GeoTerms.SortRoundTrip | classes/extendedattributefilters/ezfindgeodistextendedattributefilter.php:65 | Stripping the `geodist() asc,` prefix from the new sort gives back the previous sort exactly, so the old sort survives as the secondary key. The new sort is longer by the prefix. |
| GeoTerms.SplitPoint | classes/extendedattributefilters/ezfindgeodistextendedattributefilter.php:62 | Reading `pt` at its first comma succeeds iff the text holds a comma. The part read as longitude holds no comma, and rebuilding the point from the two parts gives back the text. |
| GeoTerms.PointRoundTrip | classes/extendedattributefilters/ezfindgeodistextendedattributefilter.php:62 | The `pt` text reads back as (longitude, latitude) if and only if the longitude holds no comma of its own. |
| GeoTerms.TermRoundTrip | classes/extendedattributefilters/ezfindgeodistextendedattributefilter.php:71-76 | Both `fq` entry shapes, `{!geofilt sfield=F}` and `F:[-90,-90 TO 90,90]`, read back as their own kind and the exact field name F, for every F. |
| GeoTerms.TermInjective | classes/extendedattributefilters/ezfindgeodistextendedattributefilter.php:71-76 | Two entries are equal if and only if they are of the same kind for the same field name. |
| RepeatedFilters.Apply | classes/extendedattributefilters/ezfindgeodistextendedattributefilter.php:65-84 | One application adds one `fq` entry and one distance sort term when the block is accepted, and nothing when it is not. The earlier entries stay in front. |
| RepeatedFilters.ApplyAllAccumulates | classes/extendedattributefilters/ezfindgeodistextendedattributefilter.php:65-76 | Applying blocks in order leaves the original filter queries as a prefix and adds one entry per accepted block. The sort becomes one `geodist() asc,` per accepted block followed by the original sort. |
| RepeatedFilters.NotIdempotent | classes/extendedattributefilters/ezfindgeodistextendedattributefilter.php:65-76 | Applying an accepted block twice prepends the distance term twice and appends two equal entries, so the result differs from a single application. |
| WorkedCases.UsageWithRadius | classes/extendedattributefilters/ezfindgeodistextendedattributefilter.php:61-71 | The usage-comment inputs with `d` = 1 and an empty sort give exactly: `sort` = `geodist() asc,`, `sfield` = the resolved name, `pt` = `1.738281,46.75984`, `d` copied, and a single geofilt entry in `fq`. There is no warning. |
| WorkedCases.UsageWithoutRadius | classes/extendedattributefilters/ezfindgeodistextendedattributefilter.php:73-76 | The same inputs without `d`, with sort `price asc`, give `geodist() asc,price asc` and a single fixed range entry in `fq`. No `d` is written. |
| WorkedCases.UsageMissingLatitude | classes/extendedattributefilters/ezfindgeodistextendedattributefilter.php:48-84 | Without `latitude` the parameters come back unchanged. The warning text is `Missing filter parameter "latitude"`. |

## Left out

- GeoDistFilter.FilterQueryParams: requires `sort`, when set, to be a string and `fq`, when set, to be a list. These are the shapes eZ Find's query builder produces. Other shapes are not modelled. What PHP does with them depends on the value and on the PHP version.
- The `(float)` cast of `d` (line 70) is floating-point conversion. The model stores `Float(literal)` holding the radius text as given.
- Filter parameters are modelled as text. PHP's conversion of a numeric latitude or longitude to a string for `pt` is not modelled.
- Reading an unset `sort` raises a PHP notice. Only its value, the empty string, is modelled.
- `eZSolr::getFieldName` is a separate library, so its mapping is not part of this model. It is the `Resolver` parameter, which may fail.
- `eZDebug::writeWarning` is a logging side effect. It appears only as the returned warning and its message text.
- The `eZFindExtendedAttributeFilterInterface` plugin dispatch and PHP exception mechanics are framework plumbing. They are replaced by plain functions and a `Result`.
- The key insertion order of PHP arrays is not modelled. The parameters form an unordered map.
- The Solr semantics of `geodist`, `geofilt` and range queries are not modelled. The filter only builds strings.
