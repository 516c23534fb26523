/**
 * `OpenSearchService::query`: serialize the query, send one search request
 * for an index with a page size and an offset, and decode the `_source` of
 * every hit in `hits.hits` into the caller's record type.
 *
 * The round trip to the cluster is the parameter `transport`: given the
 * request it yields the parsed response body, or `None` when sending or
 * parsing failed (both are returned as an error by `?`). The typed decode of
 * one document is the parameter `decode`. Both `unwrap`s of the hit decoding
 * panic, which is the outcome `Panicked`.
 */
module SearchService {
  import opened Prelude
  import opened Json
  import opened QueryDsl

  /** What one call of `query` returns, or that it panicked. */
  datatype Outcome<T> = Returned(value: T) | Failed | Panicked

  /** The search request: the target index, `size`, `from` and the JSON body. */
  datatype SearchRequest = SearchRequest(index: string, size: I64, from: I64, body: Value)

  /**
   * The request `query` sends: the limit and offset go to `size` and `from`
   * as they are (no clamping, so zero or negative values pass through) and
   * the body is the serialized query, which reads back as that same query.
   */
  function SearchRequestFor(index: string, limit: I64, offset: I64, q: OpenSearchQuery): (r: SearchRequest)
    ensures r.index == index && r.size == limit && r.from == offset
    ensures IsBoolMustQuery(r.body)
    ensures QueryFromJson(r.body) == Some(q)
  {
    QueryRoundTrip(q);
    SearchRequest(index, limit, offset, QueryToJson(q))
  }

  /** `response_body["hits"]["hits"]`, which is `null` when either key is missing. */
  function Hits(body: Value): (r: Value)
    ensures var outer := Index(body, "hits");
      && (body.Object? && "hits" in body.fields && outer.Object? && "hits" in outer.fields ==> r == outer.fields["hits"])
      && (!(body.Object? && "hits" in body.fields) ==> r == Null)
      && (!(outer.Object? && "hits" in outer.fields) ==> r == Null)
  {
    Index(Index(body, "hits"), "hits")
  }

  /** The document of one hit: `hit["_source"]` (`null` when absent). */
  function Source(hit: Value): (r: Value)
    ensures hit.Object? && "_source" in hit.fields ==> r == hit.fields["_source"]
    ensures !(hit.Object? && "_source" in hit.fields) ==> r == Null
  {
    Index(hit, "_source")
  }

  /**
   * The hit decoding: `hits.hits` must be an array (`as_array().unwrap()`),
   * and every hit's source must decode (`from_value(..).unwrap()`); `None`
   * stands for either panic. On success there is one record per hit, in
   * the hits' order, each decoded from that hit's source.
   */
  function DecodeHits<T>(body: Value, decode: Value -> Option<T>): (r: Option<seq<T>>)
    ensures !Hits(body).Array? ==> r == None
    ensures Hits(body).Array? ==>
      (r.Some? <==> forall i :: 0 <= i < |Hits(body).items| ==> decode(Source(Hits(body).items[i])).Some?)
    ensures r.Some? ==> |r.value| == |Hits(body).items|
    ensures r.Some? ==>
      forall i :: 0 <= i < |r.value| ==> decode(Source(Hits(body).items[i])) == Some(r.value[i])
  {
    match Hits(body)
    case Array(hits) => CollectAll(hits, (hit: Value) => decode(Source(hit)))
    case _ => None
  }

  /**
   * `query`: a failed round trip is an error, a malformed hit list or one
   * undecodable document is a panic, and otherwise the result is exactly the
   * decoded hit list.
   */
  function Query<T>(
    index: string, limit: I64, offset: I64, q: OpenSearchQuery,
    transport: SearchRequest -> Option<Value>, decode: Value -> Option<T>
  ): (r: Outcome<seq<T>>)
    ensures r.Failed? <==> transport(SearchRequestFor(index, limit, offset, q)).None?
    ensures r.Panicked? <==>
      (transport(SearchRequestFor(index, limit, offset, q)).Some?
       && DecodeHits(transport(SearchRequestFor(index, limit, offset, q)).value, decode).None?)
    ensures r.Returned? ==>
      Some(r.value) == DecodeHits(transport(SearchRequestFor(index, limit, offset, q)).value, decode)
  {
    match transport(SearchRequestFor(index, limit, offset, q))
    case None => Failed
    case Some(body) =>
      match DecodeHits(body, decode)
      case None => Panicked
      case Some(records) => Returned(records)
  }

  /**
   * All or nothing: if any one hit's source fails to decode, the whole call
   * panics and no partial list is returned.
   */
  lemma OneBadDocumentPanics<T>(
    index: string, limit: I64, offset: I64, q: OpenSearchQuery,
    transport: SearchRequest -> Option<Value>, decode: Value -> Option<T>, body: Value, k: nat
  )
    requires transport(SearchRequestFor(index, limit, offset, q)) == Some(body)
    requires Hits(body).Array? && k < |Hits(body).items|
    requires decode(Source(Hits(body).items[k])).None?
    ensures Query(index, limit, offset, q, transport, decode) == Panicked
  {
  }

  /** A response whose `hits.hits` is missing or not an array makes the whole call panic. */
  lemma MalformedHitListPanics<T>(
    index: string, limit: I64, offset: I64, q: OpenSearchQuery,
    transport: SearchRequest -> Option<Value>, decode: Value -> Option<T>, body: Value
  )
    requires transport(SearchRequestFor(index, limit, offset, q)) == Some(body)
    requires !Hits(body).Array?
    ensures Query(index, limit, offset, q, transport, decode) == Panicked
  {
  }

  /** On success the records are the hits' sources, decoded, one for one and in order. */
  lemma ReturnedRecordsAreDecodedHits<T>(
    index: string, limit: I64, offset: I64, q: OpenSearchQuery,
    transport: SearchRequest -> Option<Value>, decode: Value -> Option<T>, records: seq<T>
  )
    requires Query(index, limit, offset, q, transport, decode) == Returned(records)
    ensures var body := transport(SearchRequestFor(index, limit, offset, q)).value;
      && Hits(body).Array?
      && |records| == |Hits(body).items|
      && forall i :: 0 <= i < |records| ==> decode(Source(Hits(body).items[i])) == Some(records[i])
  {
  }
}
