# OpenSearch query layer of the flight-search Lambda, in Dafny

This project models the query-construction and result-decoding layer of a
small OpenSearch client written in Rust, and the flight-search Lambda
handler that uses it:

- the query AST `OpenSearchQuery { query: BoolQuery { bool: MustQuery { must } } }`,
  whose clauses are untagged `MatchStatement` / `RangeStatement` values, with
  the wire form the derived `Serialize` gives it
  (`{"query":{"bool":{"must":[{"match":{f:v}} | {"range":{f:{"gte":..,"lte":..}}}]}}}`)
  and the derived `Deserialize` that reads it back;
- `OpenSearchQueryBuilder` (`new`, `with_must_match`, `with_must_range`,
  `build`), as a class that pushes clauses onto its query in place, and the
  same steps as functions on the query value;
- the hit decoding of `OpenSearchService::query`: `hits.hits` must be an
  array and every hit's `_source` must decode, or the call panics;
- `function_handler`: pagination defaults, the fixed builder chain, the
  fixed index, and the wrapping of the records as `flights`.

Modules: `Prelude` (Rust's `Option`, `i64`, `u64`, and the all-or-nothing
`collect`), `Json` (serde_json's `Value` and the serde behaviour the core
relies on), `QueryDsl` (the AST, builder steps, serialization and
deserialization), `QueryBuilder` (the builder class and lemmas about chains
of calls), `SearchService` (the search request and hit decoding) and
`FlightQuery` (the handler).

Modelling choices:

- `f64` values are kept as their 64-bit pattern (`Json.F64`); the core only
  copies them. A JSON number has serde_json's three kinds: a `u64`, a
  negative `i64`, or a finite double, so `3` and `3.0` differ, as they do to a
  typed decode that wants an integer field. serde_json writes a non-finite
  `f64` as `null`, and the model does the same.
- The network round trip is a parameter `transport: SearchRequest -> Option<Value>`:
  `None` is a failure of `send()` or of parsing the body, which `query`
  returns as an error through `?`. Both `unwrap`s of the hit decoding panic;
  the model returns `Panicked` (or `None` from `DecodeHits`) there.
- The typed decode of a document (`serde_json::from_value::<T>`) is a
  parameter `decode: Value -> Option<T>`; the flight record is the type
  parameter `T`.
- A malformed hit list and an undecodable document panic through `unwrap`
  (functions/opensearch_service/src/lib.rs:61, 63); they are not returned as
  errors. Clause payloads are free-form `Value`s. The service has no
  match-all entry point.
- The builder methods take the builder by value in Rust, so nothing can be
  called on it after `build`; the ghost flag `consumed` states that rule.

## Model

| member | source | states |
|---|---|---|
| `Prelude.CollectAll` | functions/opensearch_service/src/lib.rs:59-64 | mapping a partial function over a list succeeds exactly when every element succeeds; then the result has one element per input, in order, each the element's image; one failure gives no partial list |
| `QueryDsl.EmptyQuery` | functions/opensearch_service/src/lib.rs:110-118 | the starting query has an empty `must` list |
| `QueryDsl.OpenSearchQuery.WithMustMatch` | functions/opensearch_service/src/lib.rs:120-134 | an empty value leaves the query unchanged; a non-empty value appends exactly one match clause `{field: value}` at the end and keeps the earlier clauses |
| `QueryDsl.OpenSearchQuery.WithMustRange` | functions/opensearch_service/src/lib.rs:136-150 | always appends exactly one range clause at the end, for every pair of bounds, both absent included |
| `QueryDsl.MatchClause` | functions/opensearch_service/src/lib.rs:128-131 | the appended match clause carries a one-key object mapping the field to the value as a JSON string |
| `QueryDsl.RangeClause` | functions/opensearch_service/src/lib.rs:137-148 | the appended range clause maps the field to an object with exactly the keys "gte" and "lte"; an absent or non-finite bound is null, a finite bound is copied as is, and the bounds are not compared |
| `QueryDsl.QueryToJson` | functions/opensearch_service/src/lib.rs:72-103 | the serialized query is exactly `{"query":{"bool":{"must":[...]}}}` with one entry per clause, in order, each a single-key object keyed "match" for match statements and "range" for range statements |
| `QueryDsl.StatementFromJson` | functions/opensearch_service/src/lib.rs:87-103 | an untagged clause reads back when its value carries the field "match" or the field "range"; the match statement is tried first, so a value with "match" reads as that match payload, and one with only "range" as that range payload |
| `QueryDsl.StatementsFromJson` | functions/opensearch_service/src/lib.rs:82-85 | a clause list reads back only from an array whose every element reads as a clause; then one clause per element, in order |
| `QueryDsl.QueryFromJson` | functions/opensearch_service/src/lib.rs:72-85 | a value that is neither object nor array, or an object without "query", does not read back; every well-formed bool/must wire query reads back with one clause per wire clause, in order |
| `QueryDsl.WireClausesReadBack` | functions/opensearch_service/src/lib.rs:87-103 | every clause of a well-formed wire query, keyed "match" or "range", reads back as a clause |
| `QueryDsl.StatementsRoundTrip` | functions/opensearch_service/src/lib.rs:82-103 | reading back a serialized clause list gives the same clauses in the same order |
| `QueryDsl.QueryRoundTrip` | functions/opensearch_service/src/lib.rs:72-103 | deserializing the serialized query reproduces the query exactly |
| `QueryBuilder.OpenSearchQueryBuilder.constructor` | functions/opensearch_service/src/lib.rs:110-118 | `new` gives a builder whose query has no clauses |
| `QueryBuilder.OpenSearchQueryBuilder.WithMustMatch` | functions/opensearch_service/src/lib.rs:120-134 | in place: an empty value changes nothing, a non-empty one pushes one match clause at the end |
| `QueryBuilder.OpenSearchQueryBuilder.WithMustRange` | functions/opensearch_service/src/lib.rs:136-150 | in place: always pushes one range clause at the end |
| `QueryBuilder.OpenSearchQueryBuilder.Build` | functions/opensearch_service/src/lib.rs:152-154 | returns the accumulated query unchanged and ends the builder's use |
| `QueryBuilder.ApplyAllAppends` | functions/opensearch_service/src/lib.rs:120-150 | a chain of builder calls keeps the existing clauses and appends each call's contribution in call order |
| `QueryBuilder.ContributedLength` | functions/opensearch_service/src/lib.rs:120-150 | each range call and each non-empty match call contributes exactly one clause, every other call none |
| `QueryBuilder.BuildChainClauses` | functions/opensearch_service/src/lib.rs:110-154 | after `new`, a chain and `build`, the must list is exactly the contributed clauses in call order, of length (range calls) + (non-empty match calls) |
| `SearchService.SearchRequestFor` | functions/opensearch_service/src/lib.rs:44-53 | the request targets the given index with size = limit and from = offset unclamped, and its body is a well-formed bool/must query that reads back as the query |
| `SearchService.Hits` | functions/opensearch_service/src/lib.rs:59 | `hits.hits` is the inner member when both levels are objects holding "hits", and null otherwise |
| `SearchService.Source` | functions/opensearch_service/src/lib.rs:63 | a hit's document is its "_source" member, or null when the hit is not an object holding it |
| `SearchService.DecodeHits` | functions/opensearch_service/src/lib.rs:59-64 | fails unless `hits.hits` is an array whose every hit's `_source` decodes; on success one record per hit, in order, each decoded from that hit's `_source` |
| `SearchService.Query` | functions/opensearch_service/src/lib.rs:34-67 | a failed round trip is an error, a malformed hit list or undecodable document a panic, otherwise the result is the decoded hit list |
| `SearchService.OneBadDocumentPanics` | functions/opensearch_service/src/lib.rs:59-63 | one hit whose `_source` does not decode makes the whole call panic, with no partial list |
| `SearchService.MalformedHitListPanics` | functions/opensearch_service/src/lib.rs:59-61 | a response whose `hits.hits` is missing or not an array makes the whole call panic |
| `SearchService.ReturnedRecordsAreDecodedHits` | functions/opensearch_service/src/lib.rs:59-66 | returned records correspond one for one, in order, to the hits' decoded sources |
| `FlightQuery.Limit` | functions/query/src/main.rs:36 | the page size is the request's `pagination.limit` when present, else 10, with no clamping |
| `FlightQuery.Offset` | functions/query/src/main.rs:38 | the offset is the request's `pagination.offset` when present, else 0, with no clamping |
| `FlightQuery.BuildFlightsQuery` | functions/query/src/main.rs:40-46 | running the builder class call by call yields exactly the handler's query |
| `FlightQuery.FunctionHandler` | functions/query/src/main.rs:30-56 | errors and panics of the search pass through; on success `flights` is exactly the search result |
| `FlightQuery.FlightsQuery` | functions/query/src/main.rs:40-46 | the clauses are the present non-empty filters in the order OriginWeather, DestWeather, DestCityName, OriginCityName, then the AvgTicketPrice range with gte = minimum and lte = maximum |
| `FlightQuery.FlightsQueryShape` | functions/query/src/main.rs:40-46 | the query has between 1 and 5 clauses (one per present non-empty filter plus one), the last always the AvgTicketPrice range, all others match clauses |
| `FlightQuery.EmptyFilterIsAbsent` | functions/query/src/main.rs:41-44 | an explicitly empty string filter yields the same query and the same outcome as an absent one |
| `FlightQuery.HandlerSearch` | functions/query/src/main.rs:34-53 | the search goes to "opensearch_dashboards_sample_data_flights" with the defaulted limit and offset and the built query; a failed round trip fails the handler; otherwise `flights` equals a list exactly when the hits decode to that list |

## Left out

- `OpenSearchService::local_client` (functions/opensearch_service/src/lib.rs:18-32): connection pool, credentials and certificate policy are set up inside the OpenSearch client library.
- The network round trip (`send().await`, `response.json().await`): it is the `transport` parameter; the request's HTTP encoding is not modelled.
- The textual JSON encoding of the body: the model stops at the `Value` that `json!(query)` produces.
- The `println!` of the query (functions/opensearch_service/src/lib.rs:46).
- The Lambda runtime, tokio and tracing setup in `main` (functions/query/src/main.rs:58-68), and the deserialization of the event payload into `Request`.
- `FlightData` and `Location` (functions/query/src/main.rs:71-111): their serde field mappings are the abstract `decode` parameter.
- Floating-point semantics: bounds are opaque bit patterns; only the finite/non-finite distinction that serde_json makes is modelled.
- Asynchrony and concurrency: `query` and the handler are modelled as single synchronous calls.
