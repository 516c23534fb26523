/**
 * The OpenSearch boolean "must" query: its in-memory form, the clause
 * payloads the builder writes, the wire form the derived `Serialize`
 * produces, and the derived `Deserialize` that reads it back.
 *
 * Wire form: {"query": {"bool": {"must": [clause, ...]}}}, where each clause
 * is {"match": {field: value}} or {"range": {field: {"gte": lo, "lte": hi}}}.
 */
module QueryDsl {
  import opened Prelude
  import opened Json

  /**
   * One clause. The enum is untagged, so a clause serializes as its struct
   * alone: a match statement as {"match": payload} (the field
   * `match_statement` is renamed) and a range statement as {"range": payload}.
   * The payloads are free-form values.
   */
  datatype QueryStatement =
    | MatchStatement(matchStatement: Value)
    | RangeStatement(range: Value)

  /** Serialized under the key "must". */
  datatype MustQuery = MustQuery(must: seq<QueryStatement>)

  /** Serialized under the key "bool" (a reserved word here, hence `boolean`). */
  datatype BoolQuery = BoolQuery(boolean: MustQuery)

  /**
   * The whole query, serialized under the key "query". The two builder steps
   * are given here as functions on the value; the builder class applies them
   * in place.
   */
  datatype OpenSearchQuery = OpenSearchQuery(query: BoolQuery) {

    /** The clause list `query.bool.must`. */
    function Must(): seq<QueryStatement> {
      query.boolean.must
    }

    /** The query with `s` pushed at the end of the clause list. */
    function Push(s: QueryStatement): (r: OpenSearchQuery)
      ensures r.Must() == Must() + [s]
    {
      OpenSearchQuery(BoolQuery(MustQuery(query.boolean.must + [s])))
    }

    /**
     * `with_must_match`: an empty value adds nothing, so that an absent
     * filter needs no branch at the call site; any other value appends one
     * match clause after the existing ones.
     */
    function WithMustMatch(field: string, value: string): (r: OpenSearchQuery)
      ensures value == "" ==> r == this
      ensures value != "" ==> r.Must() == Must() + [MatchClause(field, value)]
      ensures |r.Must()| == |Must()| + (if value == "" then 0 else 1)
      ensures r.Must()[..|Must()|] == Must()
    {
      if value == "" then this else Push(MatchClause(field, value))
    }

    /**
     * `with_must_range`: always appends one range clause, even when both
     * bounds are absent and without comparing the bounds.
     */
    function WithMustRange(field: string, from: Option<F64>, to: Option<F64>): (r: OpenSearchQuery)
      ensures r.Must() == Must() + [RangeClause(field, from, to)]
      ensures |r.Must()| == |Must()| + 1
    {
      Push(RangeClause(field, from, to))
    }
  }

  /** The query `OpenSearchQueryBuilder::new` starts from: no clauses. */
  function EmptyQuery(): (q: OpenSearchQuery)
    ensures q.Must() == []
  {
    OpenSearchQuery(BoolQuery(MustQuery([])))
  }

  /**
   * The clause `with_must_match` appends: a match statement whose payload
   * is a one-key object mapping the field to the value, as a JSON string.
   */
  function MatchClause(field: string, value: string): (r: QueryStatement)
    ensures r.MatchStatement?
    ensures r.matchStatement.Object? && r.matchStatement.fields.Keys == {field}
    ensures r.matchStatement.fields[field] == String(value)
  {
    MatchStatement(Object(map[field := String(value)]))
  }

  /**
   * The clause `with_must_range` appends: a range statement whose payload
   * is a one-key object mapping the field to exactly the two bounds "gte"
   * and "lte". An absent bound is `null`, a finite bound is copied
   * unchanged, a non-finite one becomes `null`, and nothing relates the two
   * bounds to each other.
   */
  function RangeClause(field: string, from: Option<F64>, to: Option<F64>): (r: QueryStatement)
    ensures r.RangeStatement?
    ensures r.range.Object? && r.range.fields.Keys == {field}
    ensures var b := r.range.fields[field];
      && b.Object? && b.fields.Keys == {"gte", "lte"}
      && (from.None? ==> b.fields["gte"] == Null)
      && (to.None? ==> b.fields["lte"] == Null)
      && (from.Some? && IsFinite(from.value) ==> b.fields["gte"] == Number(Float(from.value)))
      && (to.Some? && IsFinite(to.value) ==> b.fields["lte"] == Number(Float(to.value)))
      && (from.Some? && !IsFinite(from.value) ==> b.fields["gte"] == Null)
      && (to.Some? && !IsFinite(to.value) ==> b.fields["lte"] == Null)
  {
    RangeStatement(Object(map[field := Object(map["gte" := FromOptionF64(from), "lte" := FromOptionF64(to)])]))
  }

  // ---------------------------------------------------------------- Serialize

  /** The derived `Serialize` of one (untagged) clause. */
  function StatementToJson(s: QueryStatement): Value {
    match s
    case MatchStatement(p) => Object(map["match" := p])
    case RangeStatement(p) => Object(map["range" := p])
  }

  function StatementsToJson(ss: seq<QueryStatement>): (r: seq<Value>)
    ensures |r| == |ss|
    ensures forall i :: 0 <= i < |ss| ==> r[i] == StatementToJson(ss[i])
  {
    seq(|ss|, i requires 0 <= i < |ss| => StatementToJson(ss[i]))
  }

  /** A wire clause: an object with the single key "match" or the single key "range". */
  ghost predicate IsWireClause(v: Value) {
    v.Object? && (v.fields.Keys == {"match"} || v.fields.Keys == {"range"})
  }

  /** The wire form {"query": {"bool": {"must": [clause, ...]}}}, each level holding exactly that one key. */
  ghost predicate IsBoolMustQuery(v: Value) {
    && v.Object? && v.fields.Keys == {"query"}
    && var b := v.fields["query"];
    && b.Object? && b.fields.Keys == {"bool"}
    && var m := b.fields["bool"];
    && m.Object? && m.fields.Keys == {"must"}
    && m.fields["must"].Array?
    && var items := m.fields["must"].items;
    && forall i :: 0 <= i < |items| ==> IsWireClause(items[i])
  }

  /** The clause array of a wire-form query. */
  ghost function WireClauses(v: Value): seq<Value>
    requires IsBoolMustQuery(v)
  {
    v.fields["query"].fields["bool"].fields["must"].items
  }

  /**
   * The derived `Serialize` of the whole query (what `json!(query)` yields):
   * the fixed three-level envelope around one wire clause per clause, in
   * order, keyed "match" exactly for the match statements.
   */
  function QueryToJson(q: OpenSearchQuery): (r: Value)
    ensures IsBoolMustQuery(r)
    ensures |WireClauses(r)| == |q.Must()|
    ensures forall i :: 0 <= i < |q.Must()| ==>
      && IsWireClause(WireClauses(r)[i])
      && ("match" in WireClauses(r)[i].fields <==> q.Must()[i].MatchStatement?)
  {
    var items := StatementsToJson(q.Must());
    Object(map["query" := Object(map["bool" := Object(map["must" := Array(items)])])])
  }

  // -------------------------------------------------------------- Deserialize

  /**
   * The derived `Deserialize` of one untagged clause: the match statement is
   * tried first (it needs the field "match"), then the range statement (it
   * needs "range"); other keys are ignored.
   */
  function StatementFromJson(v: Value): (r: Option<QueryStatement>)
    ensures r.Some? <==> StructField(v, "match").Some? || StructField(v, "range").Some?
    ensures StructField(v, "match").Some? ==> r == Some(MatchStatement(StructField(v, "match").value))
    ensures StructField(v, "match").None? && StructField(v, "range").Some? ==>
      r == Some(RangeStatement(StructField(v, "range").value))
  {
    match StructField(v, "match")
    case Some(p) => Some(MatchStatement(p))
    case None =>
      match StructField(v, "range")
      case Some(p) => Some(RangeStatement(p))
      case None => None
  }

  /** The derived `Deserialize` of a `Vec` of clauses: an array whose every element reads as a clause. */
  function StatementsFromJson(v: Value): (r: Option<seq<QueryStatement>>)
    ensures !v.Array? ==> r == None
    ensures v.Array? ==> (r.Some? <==> forall i :: 0 <= i < |v.items| ==> StatementFromJson(v.items[i]).Some?)
    ensures r.Some? ==> |r.value| == |v.items|
    ensures r.Some? ==> forall i :: 0 <= i < |v.items| ==> StatementFromJson(v.items[i]) == Some(r.value[i])
  {
    match v
    case Array(items) => CollectAll(items, StatementFromJson)
    case _ => None
  }

  /** The derived `Deserialize` of the whole query, through its three one-field structs. */
  function QueryFromJson(v: Value): (r: Option<OpenSearchQuery>)
    ensures !v.Object? && !v.Array? ==> r == None
    ensures v.Object? && "query" !in v.fields ==> r == None
    ensures IsBoolMustQuery(v) ==>
      && r.Some?
      && |r.value.Must()| == |WireClauses(v)|
      && forall i :: 0 <= i < |WireClauses(v)| ==> StatementFromJson(WireClauses(v)[i]) == Some(r.value.Must()[i])
  {
    WireClausesReadBack(v);
    var b :- StructField(v, "query");
    var m :- StructField(b, "bool");
    var a :- StructField(m, "must");
    var must :- StatementsFromJson(a);
    Some(OpenSearchQuery(BoolQuery(MustQuery(must))))
  }

  /** Every clause of a well-formed wire query reads back as a clause. */
  lemma WireClausesReadBack(v: Value)
    ensures IsBoolMustQuery(v) ==> forall i :: 0 <= i < |WireClauses(v)| ==> StatementFromJson(WireClauses(v)[i]).Some?
  {
  }

  /** Reading back a serialized clause list gives the same clauses in the same order. */
  lemma StatementsRoundTrip(ss: seq<QueryStatement>)
    ensures StatementsFromJson(Array(StatementsToJson(ss))) == Some(ss)
  {
    var items := StatementsToJson(ss);
    forall i | 0 <= i < |ss|
      ensures StatementFromJson(items[i]) == Some(ss[i])
    {
      match ss[i]
      case MatchStatement(p) =>
      case RangeStatement(p) =>
        assert "match" !in map["range" := p];
    }
    var r := CollectAll(items, StatementFromJson);
    assert r.Some?;
    assert r.value == ss;
  }

  /** Serializing a query and deserializing it again reproduces it exactly. */
  lemma QueryRoundTrip(q: OpenSearchQuery)
    ensures QueryFromJson(QueryToJson(q)) == Some(q)
  {
    StatementsRoundTrip(q.Must());
  }
}
