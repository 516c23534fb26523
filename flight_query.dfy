/**
 * The flight-search handler: it maps a request record to pagination, a
 * query on the sample flights index, and wraps what the search returns as
 * the response's `flights`. The flight record itself is the type parameter
 * `T`, and `decode` is its derived deserialization.
 */
module FlightQuery {
  import opened Prelude
  import opened Json
  import opened QueryDsl
  import opened SearchService
  import opened QueryBuilder

  datatype Pagination = Pagination(limit: Option<I64>, offset: Option<I64>)

  /** The request body; every filter is optional. */
  datatype Request = Request(
    destinationCityName: Option<string>,
    originCityName: Option<string>,
    destinationWeather: Option<string>,
    originWeather: Option<string>,
    maxAvgTicketPrice: Option<F64>,
    minAvgTicketPrice: Option<F64>,
    pagination: Option<Pagination>)

  datatype Response<T> = Response(flights: seq<T>)

  /** The one index the handler searches. */
  const FLIGHTS_INDEX := "opensearch_dashboards_sample_data_flights"

  /** The page size: the request's `pagination.limit` if given, otherwise 10; never clamped. */
  function Limit(req: Request): (limit: I64)
    ensures req.pagination.Some? && req.pagination.value.limit.Some? ==> limit == req.pagination.value.limit.value
    ensures req.pagination.None? || req.pagination.value.limit.None? ==> limit == 10
  {
    req.pagination.AndThen((p: Pagination) => p.limit).UnwrapOr(10)
  }

  /** The offset: the request's `pagination.offset` if given, otherwise 0; never clamped. */
  function Offset(req: Request): (offset: I64)
    ensures req.pagination.Some? && req.pagination.value.offset.Some? ==> offset == req.pagination.value.offset.value
    ensures req.pagination.None? || req.pagination.value.offset.None? ==> offset == 0
  {
    req.pagination.AndThen((p: Pagination) => p.offset).UnwrapOr(0)
  }

  /**
   * The builder chain: four match filters (absent ones passed as "") and the
   * ticket-price range. Its clauses are exactly the present non-empty
   * filters in the fixed order OriginWeather, DestWeather, DestCityName,
   * OriginCityName, then the AvgTicketPrice range with gte = minimum and
   * lte = maximum.
   */
  function FlightsQuery(req: Request): (q: OpenSearchQuery)
    ensures q.Must() ==
      Filter("OriginWeather", req.originWeather)
      + Filter("DestWeather", req.destinationWeather)
      + Filter("DestCityName", req.destinationCityName)
      + Filter("OriginCityName", req.originCityName)
      + [RangeClause("AvgTicketPrice", req.minAvgTicketPrice, req.maxAvgTicketPrice)]
  {
    EmptyQuery()
      .WithMustMatch("OriginWeather", req.originWeather.UnwrapOr(""))
      .WithMustMatch("DestWeather", req.destinationWeather.UnwrapOr(""))
      .WithMustMatch("DestCityName", req.destinationCityName.UnwrapOr(""))
      .WithMustMatch("OriginCityName", req.originCityName.UnwrapOr(""))
      .WithMustRange("AvgTicketPrice", req.minAvgTicketPrice, req.maxAvgTicketPrice)
  }

  /**
   * The same chain run on the in-place builder, call by call, as the
   * handler's fluent expression does; it builds exactly `FlightsQuery(req)`.
   */
  method BuildFlightsQuery(req: Request) returns (q: OpenSearchQuery)
    ensures q == FlightsQuery(req)
  {
    var builder := new OpenSearchQueryBuilder();
    builder.WithMustMatch("OriginWeather", req.originWeather.UnwrapOr(""));
    builder.WithMustMatch("DestWeather", req.destinationWeather.UnwrapOr(""));
    builder.WithMustMatch("DestCityName", req.destinationCityName.UnwrapOr(""));
    builder.WithMustMatch("OriginCityName", req.originCityName.UnwrapOr(""));
    builder.WithMustRange("AvgTicketPrice", req.minAvgTicketPrice, req.maxAvgTicketPrice);
    q := builder.Build();
  }

  /** `function_handler`: one search, its records returned as `flights`; errors and panics pass through. */
  function FunctionHandler<T>(
    req: Request, transport: SearchRequest -> Option<Value>, decode: Value -> Option<T>
  ): (r: Outcome<Response<T>>)
    ensures var res := Query(FLIGHTS_INDEX, Limit(req), Offset(req), FlightsQuery(req), transport, decode);
      && (r.Failed? <==> res.Failed?)
      && (r.Panicked? <==> res.Panicked?)
      && (r.Returned? ==> res.Returned? && r.value.flights == res.value)
  {
    match Query(FLIGHTS_INDEX, Limit(req), Offset(req), FlightsQuery(req), transport, decode)
    case Returned(records) => Returned(Response(records))
    case Failed => Failed
    case Panicked => Panicked
  }

  // ------------------------------------------------------------ properties

  /** The match clause a filter contributes: one for a present, non-empty value, none otherwise. */
  function Filter(field: string, value: Option<string>): seq<QueryStatement> {
    if value.Some? && value.value != "" then [MatchClause(field, value.value)] else []
  }

  /** The number of string filters that are present and non-empty. */
  function PresentFilters(req: Request): nat {
    |Filter("OriginWeather", req.originWeather)|
    + |Filter("DestWeather", req.destinationWeather)|
    + |Filter("DestCityName", req.destinationCityName)|
    + |Filter("OriginCityName", req.originCityName)|
  }

  /**
   * The built query always has between one and five clauses: one per
   * present non-empty filter, and the range clause, which is always there
   * and always last.
   */
  lemma FlightsQueryShape(req: Request)
    ensures |FlightsQuery(req).Must()| == PresentFilters(req) + 1
    ensures 1 <= |FlightsQuery(req).Must()| <= 5
    ensures FlightsQuery(req).Must()[|FlightsQuery(req).Must()| - 1] ==
      RangeClause("AvgTicketPrice", req.minAvgTicketPrice, req.maxAvgTicketPrice)
    ensures forall i :: 0 <= i < |FlightsQuery(req).Must()| - 1 ==> FlightsQuery(req).Must()[i].MatchStatement?
  {
  }

  /** Every explicitly empty string filter replaced by an absent one. */
  function WithoutEmptyFilters(req: Request): Request {
    req.(
      destinationCityName := if req.destinationCityName == Some("") then None else req.destinationCityName,
      originCityName := if req.originCityName == Some("") then None else req.originCityName,
      destinationWeather := if req.destinationWeather == Some("") then None else req.destinationWeather,
      originWeather := if req.originWeather == Some("") then None else req.originWeather)
  }

  /** An explicitly empty string filter gives the same search, and so the same outcome, as an absent one. */
  lemma EmptyFilterIsAbsent<T>(req: Request, transport: SearchRequest -> Option<Value>, decode: Value -> Option<T>)
    ensures FlightsQuery(WithoutEmptyFilters(req)) == FlightsQuery(req)
    ensures FunctionHandler(WithoutEmptyFilters(req), transport, decode) == FunctionHandler(req, transport, decode)
  {
  }

  /**
   * What the handler sends: the fixed flights index, `size` = limit and
   * `from` = offset as defaulted, and a body that reads back as the built
   * query. On success `flights` is exactly the decoded hit list, in order.
   */
  lemma HandlerSearch<T>(req: Request, transport: SearchRequest -> Option<Value>, decode: Value -> Option<T>)
    ensures var sent := SearchRequestFor(FLIGHTS_INDEX, Limit(req), Offset(req), FlightsQuery(req));
      && sent.index == "opensearch_dashboards_sample_data_flights"
      && sent.size == Limit(req) && sent.from == Offset(req)
      && QueryFromJson(sent.body) == Some(FlightsQuery(req))
      && (transport(sent).None? <==> FunctionHandler(req, transport, decode) == Failed)
      && (transport(sent).Some? ==>
            forall flights: seq<T> {:trigger Response(flights)} ::
              FunctionHandler(req, transport, decode) == Returned(Response(flights))
              <==> DecodeHits(transport(sent).value, decode) == Some(flights))
  {
  }
}
