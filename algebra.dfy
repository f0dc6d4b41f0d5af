/**
 * The query-evaluation strategy over an algebra tree: its settings, the sanitising
 * of the incoming binding set, the offset-then-limit of a slice, and the choice of
 * join strategy from the shape of a join's right operand.
 *
 * `Eval` gives the meaning of a tree. Operators whose evaluation the strategy
 * inherits (the generic join iterator, the filter iterator, conditions, external
 * batching operators) are given here only as much meaning as the batching
 * arguments need: a join evaluates its right operand once per left row, a filter
 * keeps the rows its condition holds for.
 */
module Algebra {
  import opened Wrappers
  import opened Rdf
  import opened PatternEvaluation

  // ---------------------------------------------------------------------------
  // Settings chosen by the constructor

  /** The configuration values the constructor reads; `None` is a null entry. */
  datatype Configuration = Configuration(numThreads: Option<int>, performant: Option<bool>, displayQueryPlan: Option<bool>)

  /** The strategy's settings after construction. */
  datatype Strategy = Strategy(numOfThreads: int, performant: bool, displayQueryPlan: bool)

  /**
   * The constructor: one thread whatever the configuration says; `performant` and
   * `displayQueryPlan` from the configuration when set, else their defaults true and false.
   */
  function NewStrategy(conf: Configuration): (s: Strategy)
    ensures s.numOfThreads == 1
    ensures conf.performant.None? ==> s.performant
    ensures conf.performant.Some? ==> s.performant == conf.performant.value
    ensures conf.displayQueryPlan.None? ==> !s.displayQueryPlan
    ensures conf.displayQueryPlan.Some? ==> s.displayQueryPlan == conf.displayQueryPlan.value
  {
    var numOfThreads := 1;
    var performant := if conf.performant.Some? then conf.performant.value else true;
    var displayQueryPlan := if conf.displayQueryPlan.Some? then conf.displayQueryPlan.value else false;
    Strategy(numOfThreads, performant, displayQueryPlan)
  }

  // ---------------------------------------------------------------------------
  // The algebra

  /** Query operators; a filter's condition and an external batching operator are named by number. */
  datatype Expr =
    | StatementPattern(pattern: Pattern)
    | Join(left: Expr, right: Expr)
    | Filter(condition: nat, arg: Expr)
    | Slice(offset: Option<nat>, limit: Option<nat>, arg: Expr)
    | ExternalBatching(id: nat)

  /** The operators the strategy does not define: conditions and external batching operators. */
  datatype Env = Env(
    backend: Backend,
    holds: (nat, BindingSet) -> bool,
    external: (nat, seq<BindingSet>) -> Result<seq<BindingSet>, EvalError>)

  function Size(e: Expr): nat
  {
    match e
    case StatementPattern(_) => 1
    case ExternalBatching(_) => 1
    case Join(l, r) => 1 + Size(l) + Size(r)
    case Filter(_, a) => 1 + Size(a)
    case Slice(_, _, a) => 1 + Size(a)
  }

  // ---------------------------------------------------------------------------
  // Join dispatch

  /** The iterator `evaluate(Join)` builds. */
  datatype JoinPlan =
    | Batched(buffer: Expr, pattern: Pattern)                      // MultipleBindingSetsIterator
    | ExternalBatched(buffer: Expr, id: nat)                       // ExternalMultipleBindingSetsIterator
    | FilteredBatched(condition: nat, buffer: Expr, pattern: Pattern) // FilterIterator over MultipleBindingSetsIterator
    | Pairwise(left: Expr, right: Expr)                            // JoinIterator
    | Inherited(left: Expr, right: Expr)                           // the superclass's join

  /** The filter-over-a-join-of-two-patterns shape that is evaluated by reordering. */
  predicate FilterOfPatternJoin(right: Expr)
  {
    right.Filter? && right.arg.Join? && right.arg.left.StatementPattern? && right.arg.right.StatementPattern?
  }

  /**
   * The join strategy is chosen from the right operand alone. A pattern or an external
   * batching operator is joined in batch; a filter over a pattern is a filter over a
   * batched join; a filter over a join of two patterns folds the first pattern into the
   * left side; anything else is a generic join. Without `performant`, the superclass's
   * join is used.
   */
  function ChooseJoin(performant: bool, left: Expr, right: Expr): (p: JoinPlan)
    ensures !performant ==> p == Inherited(left, right)
    ensures performant && right.StatementPattern? ==> p == Batched(left, right.pattern)
    ensures performant && right.ExternalBatching? ==> p == ExternalBatched(left, right.id)
    ensures performant && right.Filter? && right.arg.StatementPattern? ==>
      p == FilteredBatched(right.condition, left, right.arg.pattern)
    ensures performant && FilterOfPatternJoin(right) ==>
      p == FilteredBatched(right.condition, Join(left, right.arg.left), right.arg.right.pattern)
    ensures p.Pairwise? <==>
      performant && !right.StatementPattern? && !right.ExternalBatching? &&
      !(right.Filter? && right.arg.StatementPattern?) && !FilterOfPatternJoin(right)
    ensures p.Pairwise? || p.Inherited? ==> p.left == left && p.right == right
    ensures p.Batched? || p.ExternalBatched? || p.FilteredBatched? ==> Size(p.buffer) < 1 + Size(left) + Size(right)
  {
    if performant then
      if right.StatementPattern? then Batched(left, right.pattern)
      else if right.ExternalBatching? then ExternalBatched(left, right.id)
      else if right.Filter? then
        if right.arg.StatementPattern? then FilteredBatched(right.condition, left, right.arg.pattern)
        else if right.arg.Join? && right.arg.left.StatementPattern? && right.arg.right.StatementPattern? then
          FilteredBatched(right.condition, Join(left, right.arg.left), right.arg.right.pattern)
        else Pairwise(left, right)
      else Pairwise(left, right)
    else Inherited(left, right)
  }

  // ---------------------------------------------------------------------------
  // Filter and slice over rows

  /** The rows the condition holds for, in order (the FilterIterator). */
  function Keep(env: Env, c: nat, rows: seq<BindingSet>): (r: seq<BindingSet>)
    decreases |rows|
  {
    if rows == [] then []
    else Keep(env, c, rows[..|rows| - 1]) + (if env.holds(c, rows[|rows| - 1]) then [rows[|rows| - 1]] else [])
  }

  /** A filter keeps a row exactly when the row is there and its condition holds. */
  lemma {:induction false} KeepMember(env: Env, c: nat, rows: seq<BindingSet>, x: BindingSet)
    ensures x in Keep(env, c, rows) <==> x in rows && env.holds(c, x)
    decreases |rows|
  {
    if rows != [] {
      var init := rows[..|rows| - 1];
      KeepMember(env, c, init, x);
      assert rows == init + [rows[|rows| - 1]];
    }
  }

  lemma {:induction false} KeepSplit(env: Env, c: nat, a: seq<BindingSet>, b: seq<BindingSet>)
    ensures Keep(env, c, a + b) == Keep(env, c, a) + Keep(env, c, b)
    decreases |b|
  {
    if b == [] {
      assert a + b == a;
    } else {
      var init := b[..|b| - 1];
      KeepSplit(env, c, a, init);
      assert (a + b)[..|a + b| - 1] == a + init;
      assert (a + b)[|a + b| - 1] == b[|b| - 1];
    }
  }

  function FilterRows(env: Env, c: nat, r: Result<seq<BindingSet>, EvalError>): Result<seq<BindingSet>, EvalError>
  {
    match r
    case Fail(e) => Fail(e)
    case Ok(rows) => Ok(Keep(env, c, rows))
  }

  /** The OffsetIteration: drop the first `o` rows. */
  function OffsetRows<T>(rows: seq<T>, o: nat): seq<T>
  {
    if o <= |rows| then rows[o..] else []
  }

  /** The LimitIteration: keep at most the first `l` rows. */
  function LimitRows<T>(rows: seq<T>, l: nat): seq<T>
  {
    if l <= |rows| then rows[..l] else rows
  }

  /**
   * `evaluate(Slice)`: the offset, if any, applied first, then the limit, if any. The
   * result is the child's rows `[o, o + l)`, `max(0, min(l, N - o))` of them, in order.
   */
  function SliceRows<T>(rows: seq<T>, offset: Option<nat>, limit: Option<nat>): (r: seq<T>)
    ensures var o := if offset.Some? then offset.value else 0;
            var rest := if o <= |rows| then |rows| - o else 0;
            && |r| == (if limit.Some? && limit.value < rest then limit.value else rest)
            && forall i :: 0 <= i < |r| ==> o + i < |rows| && r[i] == rows[o + i]
  {
    var result := rows;
    var result' := if offset.Some? then OffsetRows(result, offset.value) else result;
    if limit.Some? then LimitRows(result', limit.value) else result'
  }

  // ---------------------------------------------------------------------------
  // Sanitising

  /** A binding set as the caller hands it in: a name may be present with a null binding. */
  type RawBindingSet = map<string, Option<Value>>

  lemma SubsetOfSameSize<T>(a: set<T>, b: set<T>)
    requires a <= b && |b| <= |a|
    ensures a == b
  {
    if a != b {
      assert exists y :: y in b && y !in a;
      var x :| x in b && x !in a;
      assert a <= b - {x};
      assert |a| <= |b - {x}| by {
        SubsetSize(a, b - {x});
      }
    }
  }

  lemma SubsetSize<T>(a: set<T>, b: set<T>)
    requires a <= b
    ensures |a| <= |b|
  {
    assert b == a + (b - a);
  }

  /**
   * `SanitizeBindingSetIfNecessary`: the names whose binding is not null, with their
   * values; when no binding is null the binding set is returned as it is.
   */
  function Sanitize(bindings: RawBindingSet): (r: RawBindingSet)
    ensures r.Keys == set n | n in bindings && bindings[n].Some?
    ensures forall n :: n in r ==> r[n] == bindings[n]
    ensures (forall n :: n in bindings ==> bindings[n].Some?) ==> r == bindings
  {
    var validBindingsNames := set n | n in bindings && bindings[n].Some?;
    if |bindings.Keys| > |validBindingsNames| then
      map n | n in validBindingsNames :: bindings[n]
    else
      SubsetOfSameSize(validBindingsNames, bindings.Keys);
      bindings
  }

  /** Sanitising twice is sanitising once. */
  lemma SanitizeIdempotent(bindings: RawBindingSet)
    ensures Sanitize(Sanitize(bindings)) == Sanitize(bindings)
  {
  }

  /** A sanitised binding set seen as names bound to values. */
  function Bound(bindings: RawBindingSet): (r: BindingSet)
    requires forall n :: n in bindings ==> bindings[n].Some?
    ensures r.Keys == bindings.Keys
    ensures forall n :: n in r ==> bindings[n] == Some(r[n])
  {
    map n | n in bindings :: bindings[n].value
  }

  // ---------------------------------------------------------------------------
  // Evaluation

  /** A batched join: the left side evaluated once, the pattern evaluated once over all of its rows. */
  function BatchOver(left: Result<seq<BindingSet>, EvalError>, p: Pattern, env: Env): Result<seq<BindingSet>, EvalError>
  {
    match left
    case Fail(e) => Fail(e)
    case Ok(rows) => Results(p, rows, env.backend)
  }

  /** The meaning of a tree for one incoming binding set. */
  function Eval(s: Strategy, env: Env, e: Expr, b: BindingSet): Result<seq<BindingSet>, EvalError>
    decreases Size(e), 2
  {
    match e
    case StatementPattern(p) => Results(p, [b], env.backend)
    case ExternalBatching(id) => env.external(id, [b])
    case Filter(c, a) => FilterRows(env, c, Eval(s, env, a, b))
    case Slice(o, l, a) =>
      (match Eval(s, env, a, b)
       case Fail(x) => Fail(x)
       case Ok(rows) => Ok(SliceRows(rows, o, l)))
    case Join(l, r) =>
      match ChooseJoin(s.performant, l, r)
      case Batched(buffer, p) => BatchOver(Eval(s, env, buffer, b), p, env)
      case ExternalBatched(buffer, id) =>
        (match Eval(s, env, buffer, b)
         case Fail(x) => Fail(x)
         case Ok(rows) => env.external(id, rows))
      case FilteredBatched(c, buffer, p) => FilterRows(env, c, BatchOver(Eval(s, env, buffer, b), p, env))
      case Pairwise(_, _) => PairwiseJoin(s, env, l, r, b)
      case Inherited(_, _) => PairwiseJoin(s, env, l, r, b)
  }

  /** A generic join: the right operand evaluated once per left row, the results read one after the other. */
  function PairwiseJoin(s: Strategy, env: Env, l: Expr, r: Expr, b: BindingSet): Result<seq<BindingSet>, EvalError>
    decreases 1 + Size(l) + Size(r), 1
  {
    match Eval(s, env, l, b)
    case Fail(x) => Fail(x)
    case Ok(rows) => EvalEach(s, env, r, rows)
  }

  /** The right operand evaluated for each row in turn; the first failure wins. */
  function EvalEach(s: Strategy, env: Env, e: Expr, rows: seq<BindingSet>): Result<seq<BindingSet>, EvalError>
    decreases Size(e), |rows| + 3
  {
    if rows == [] then Ok([])
    else Then(EvalEach(s, env, e, rows[..|rows| - 1]), Eval(s, env, e, rows[|rows| - 1]))
  }

  /** The entry point `evaluate(TupleExpr, BindingSet)`: the binding set is sanitised first. */
  function Evaluate(s: Strategy, env: Env, e: Expr, bindings: RawBindingSet): Result<seq<BindingSet>, EvalError>
  {
    Eval(s, env, e, Bound(Sanitize(bindings)))
  }

  /**
   * `evaluate(TupleExpr)` evaluates the tree under a binding set holding exactly the
   * names the caller bound to a non-null value, with those values.
   */
  lemma EvaluateSeesNonNullBindings(s: Strategy, env: Env, e: Expr, bindings: RawBindingSet)
    ensures exists b: BindingSet ::
      && Evaluate(s, env, e, bindings) == Eval(s, env, e, b)
      && (forall n :: n in b <==> n in bindings && bindings[n].Some?)
      && (forall n :: n in b ==> bindings[n] == Some(b[n]))
  {
    var b := Bound(Sanitize(bindings));
    assert Evaluate(s, env, e, bindings) == Eval(s, env, e, b);
  }

  // ---------------------------------------------------------------------------
  // Batched joins agree with the generic join

  lemma {:induction false} EachPatternIsPerBinding(s: Strategy, env: Env, p: Pattern, rows: seq<BindingSet>)
    ensures EvalEach(s, env, StatementPattern(p), rows) == PerBinding(p, rows, env.backend)
    decreases |rows|
  {
    if rows != [] {
      EachPatternIsPerBinding(s, env, p, rows[..|rows| - 1]);
    }
  }

  lemma {:induction false} KeepPerBinding(s: Strategy, env: Env, c: nat, p: Pattern, rows: seq<BindingSet>)
    ensures EvalEach(s, env, Filter(c, StatementPattern(p)), rows) == FilterRows(env, c, PerBinding(p, rows, env.backend))
    decreases |rows|
  {
    if rows != [] {
      var init := rows[..|rows| - 1];
      KeepPerBinding(s, env, c, p, init);
      var last := rows[|rows| - 1];
      var a, b := PerBinding(p, init, env.backend), Results(p, [last], env.backend);
      assert Eval(s, env, StatementPattern(p), last) == b;
      assert Eval(s, env, Filter(c, StatementPattern(p)), last) == FilterRows(env, c, b);
      if a.Ok? && b.Ok? {
        KeepSplit(env, c, a.value, b.value);
      }
    }
  }

  /**
   * A join whose right operand is a statement pattern is evaluated in batch, and over a
   * store that answers per lookup this gives exactly the generic join's rows, in order.
   */
  lemma BatchedJoinAgrees(s: Strategy, env: Env, l: Expr, p: Pattern, b: BindingSet, single: (Lookup, BindingSet) -> seq<Entry>)
    requires s.performant
    requires AnswersPerLookup(env.backend, single)
    requires Results(p, [], env.backend) == Ok([])
    ensures Eval(s, env, Join(l, StatementPattern(p)), b) == PairwiseJoin(s, env, l, StatementPattern(p), b)
  {
    var left := Eval(s, env, l, b);
    if left.Ok? {
      EachPatternIsPerBinding(s, env, p, left.value);
      BatchedEqualsPerBinding(p, left.value, env.backend, single);
    }
  }

  /** The same holds when the right operand is a filter over a statement pattern. */
  lemma FilteredBatchedJoinAgrees(s: Strategy, env: Env, l: Expr, c: nat, p: Pattern, b: BindingSet, single: (Lookup, BindingSet) -> seq<Entry>)
    requires s.performant
    requires AnswersPerLookup(env.backend, single)
    requires Results(p, [], env.backend) == Ok([])
    ensures Eval(s, env, Join(l, Filter(c, StatementPattern(p))), b) == PairwiseJoin(s, env, l, Filter(c, StatementPattern(p)), b)
  {
    var left := Eval(s, env, l, b);
    if left.Ok? {
      KeepPerBinding(s, env, c, p, left.value);
      BatchedEqualsPerBinding(p, left.value, env.backend, single);
    }
  }

  /** Two outcomes with the same rows, or both failing (possibly with different exceptions). */
  predicate SameRows(a: Result<seq<BindingSet>, EvalError>, b: Result<seq<BindingSet>, EvalError>)
  {
    a.Ok? == b.Ok? && (a.Ok? ==> a.value == b.value)
  }

  /** The second pattern evaluated in batch over the rows the first produces in batch. */
  function Chained(p1: Pattern, p2: Pattern, rows: seq<BindingSet>, be: Backend): Result<seq<BindingSet>, EvalError>
  {
    match Results(p1, rows, be)
    case Fail(x) => Fail(x)
    case Ok(mid) => Results(p2, mid, be)
  }

  lemma {:induction false} ChainedPerRow(s: Strategy, env: Env, p1: Pattern, p2: Pattern, rows: seq<BindingSet>, single: (Lookup, BindingSet) -> seq<Entry>)
    requires s.performant
    requires AnswersPerLookup(env.backend, single)
    requires Results(p1, [], env.backend) == Ok([]) && Results(p2, [], env.backend) == Ok([])
    ensures SameRows(Chained(p1, p2, rows, env.backend), EvalEach(s, env, Join(StatementPattern(p1), StatementPattern(p2)), rows))
    decreases |rows|
  {
    var be := env.backend;
    if rows != [] {
      var init, last := rows[..|rows| - 1], rows[|rows| - 1];
      ChainedPerRow(s, env, p1, p2, init, single);
      assert Eval(s, env, Join(StatementPattern(p1), StatementPattern(p2)), last) == Chained(p1, p2, [last], be);
      ResultsSplit(p1, init, [last], be, single);
      assert init + [last] == rows;
      var a, b := Results(p1, init, be), Results(p1, [last], be);
      if a.Ok? && b.Ok? {
        ResultsSplit(p2, a.value, b.value, be, single);
      }
    }
  }

  lemma {:induction false} KeepEach(s: Strategy, env: Env, c: nat, e: Expr, rows: seq<BindingSet>)
    ensures EvalEach(s, env, Filter(c, e), rows) == FilterRows(env, c, EvalEach(s, env, e, rows))
    decreases |rows|
  {
    if rows != [] {
      var init, last := rows[..|rows| - 1], rows[|rows| - 1];
      KeepEach(s, env, c, e, init);
      var a, b := EvalEach(s, env, e, init), Eval(s, env, e, last);
      if a.Ok? && b.Ok? {
        KeepSplit(env, c, a.value, b.value);
      }
    }
  }

  /**
   * A filter over a join of two patterns is evaluated by folding the first pattern into
   * the left side. Over a store that answers per lookup, this yields the generic join's
   * rows, in order; when either fails, both do.
   */
  lemma ReorderedJoinAgrees(s: Strategy, env: Env, l: Expr, c: nat, p1: Pattern, p2: Pattern, b: BindingSet, single: (Lookup, BindingSet) -> seq<Entry>)
    requires s.performant
    requires AnswersPerLookup(env.backend, single)
    requires Results(p1, [], env.backend) == Ok([]) && Results(p2, [], env.backend) == Ok([])
    ensures var right := Filter(c, Join(StatementPattern(p1), StatementPattern(p2)));
            SameRows(Eval(s, env, Join(l, right), b), PairwiseJoin(s, env, l, right, b))
  {
    var right := Filter(c, Join(StatementPattern(p1), StatementPattern(p2)));
    var left := Eval(s, env, l, b);
    assert Eval(s, env, Join(l, StatementPattern(p1)), b) == BatchOver(left, p1, env);
    if left.Ok? {
      ChainedPerRow(s, env, p1, p2, left.value, single);
      KeepEach(s, env, c, Join(StatementPattern(p1), StatementPattern(p2)), left.value);
    }
  }
}
