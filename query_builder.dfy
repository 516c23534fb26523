/**
 * `OpenSearchQueryBuilder`: an accumulator that owns a query and pushes
 * clauses onto its "must" list in place, then hands the query back. Each
 * method is proved against the value-level step of the same name in
 * `QueryDsl`; the lemmas below describe what a whole chain of calls builds.
 */
module QueryBuilder {
  import opened Prelude
  import opened Json
  import opened QueryDsl

  class OpenSearchQueryBuilder {
    /** The query being accumulated. */
    var query: OpenSearchQuery

    /**
     * Set once `Build` has handed the query out. The builder methods take
     * the builder by value, so nothing can be called on it afterwards; the
     * flag states that ownership rule.
     */
    ghost var consumed: bool

    /** `new`: a builder around a query with no clauses. */
    constructor ()
      ensures query == EmptyQuery()
      ensures query.Must() == []
      ensures !consumed
    {
      query := OpenSearchQuery(BoolQuery(MustQuery([])));
      consumed := false;
    }

    /** `with_must_match`: skips an empty value, otherwise pushes {"match": {field: value}}. */
    method WithMustMatch(field: string, value: string)
      requires !consumed
      modifies this
      ensures !consumed
      ensures query == old(query).WithMustMatch(field, value)
      ensures value == "" ==> query == old(query)
      ensures value != "" ==> query.Must() == old(query.Must()) + [MatchClause(field, value)]
    {
      if value == "" {
        return;
      }
      var must := query.query.boolean.must;
      query := OpenSearchQuery(BoolQuery(MustQuery(must + [MatchClause(field, value)])));
    }

    /** `with_must_range`: always pushes {"range": {field: {"gte": from, "lte": to}}}. */
    method WithMustRange(field: string, from: Option<F64>, to: Option<F64>)
      requires !consumed
      modifies this
      ensures !consumed
      ensures query == old(query).WithMustRange(field, from, to)
      ensures query.Must() == old(query.Must()) + [RangeClause(field, from, to)]
    {
      var must := query.query.boolean.must;
      query := OpenSearchQuery(BoolQuery(MustQuery(must + [RangeClause(field, from, to)])));
    }

    /** `build`: gives up the builder and returns the accumulated query unchanged. */
    method Build() returns (q: OpenSearchQuery)
      requires !consumed
      modifies this
      ensures consumed
      ensures q == old(query)
      ensures q.Must() == old(query.Must())
    {
      q := query;
      consumed := true;
    }
  }

  // ------------------------------------------------------------ call chains

  /** One builder call, as it appears in a fluent chain. */
  datatype BuilderCall =
    | MustMatch(field: string, value: string)
    | MustRange(field: string, from: Option<F64>, to: Option<F64>)

  /** The effect of one call on the accumulated query. */
  function Apply(q: OpenSearchQuery, c: BuilderCall): OpenSearchQuery {
    match c
    case MustMatch(f, v) => q.WithMustMatch(f, v)
    case MustRange(f, lo, hi) => q.WithMustRange(f, lo, hi)
  }

  /** The chain `q.c0().c1()...`, applied left to right. */
  function ApplyAll(q: OpenSearchQuery, calls: seq<BuilderCall>): OpenSearchQuery
    decreases |calls|
  {
    if calls == [] then q else ApplyAll(Apply(q, calls[0]), calls[1..])
  }

  /** `new()` followed by the chain and `build()`. */
  function BuildChain(calls: seq<BuilderCall>): OpenSearchQuery {
    ApplyAll(EmptyQuery(), calls)
  }

  /** The clauses a chain contributes, in call order: nothing for an empty match value, one clause otherwise. */
  function Contributed(calls: seq<BuilderCall>): seq<QueryStatement>
    decreases |calls|
  {
    if calls == [] then []
    else
      var head := match calls[0]
        case MustMatch(f, v) => if v == "" then [] else [MatchClause(f, v)]
        case MustRange(f, lo, hi) => [RangeClause(f, lo, hi)];
      head + Contributed(calls[1..])
  }

  /** How many calls are range calls. */
  function RangeCalls(calls: seq<BuilderCall>): nat
    decreases |calls|
  {
    if calls == [] then 0 else (if calls[0].MustRange? then 1 else 0) + RangeCalls(calls[1..])
  }

  /** How many calls are match calls with a non-empty value. */
  function NonEmptyMatchCalls(calls: seq<BuilderCall>): nat
    decreases |calls|
  {
    if calls == [] then 0
    else (if calls[0].MustMatch? && calls[0].value != "" then 1 else 0) + NonEmptyMatchCalls(calls[1..])
  }

  /** A chain keeps the clauses already there and appends what each call contributes, in call order. */
  lemma {:induction false} ApplyAllAppends(q: OpenSearchQuery, calls: seq<BuilderCall>)
    ensures ApplyAll(q, calls).Must() == q.Must() + Contributed(calls)
    decreases |calls|
  {
    if calls != [] {
      var q' := Apply(q, calls[0]);
      ApplyAllAppends(q', calls[1..]);
      assert q'.Must() == q.Must() + Contributed([calls[0]]);
      assert Contributed(calls) == Contributed([calls[0]]) + Contributed(calls[1..]);
    }
  }

  /** Every range call and every non-empty match call contributes exactly one clause. */
  lemma {:induction false} ContributedLength(calls: seq<BuilderCall>)
    ensures |Contributed(calls)| == RangeCalls(calls) + NonEmptyMatchCalls(calls)
    decreases |calls|
  {
    if calls != [] {
      ContributedLength(calls[1..]);
    }
  }

  /**
   * After `new()`, a chain of calls and `build()`, the "must" list holds
   * exactly the contributed clauses, in call order, and its length is the
   * number of range calls plus the number of non-empty match calls.
   */
  lemma BuildChainClauses(calls: seq<BuilderCall>)
    ensures BuildChain(calls).Must() == Contributed(calls)
    ensures |BuildChain(calls).Must()| == RangeCalls(calls) + NonEmptyMatchCalls(calls)
  {
    ApplyAllAppends(EmptyQuery(), calls);
    ContributedLength(calls);
  }
}
