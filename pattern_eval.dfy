/**
 * Evaluation of one statement pattern against a batch of incoming binding sets
 * (`evaluate(StatementPattern, Collection<BindingSet>)` and its `convert`).
 *
 * A pattern is one of three kinds. A fixed pattern carries its own statement list
 * and is matched in memory; a transitive pattern with a constant endpoint asks an
 * external closure resolver; every other pattern becomes one store lookup per
 * usable binding, all sent in one batch. Each matched (statement, binding) pair is
 * then turned back into a binding set.
 *
 * The spec functions (FixedEntries, TransitiveEntries, OrdinaryEntries, Results)
 * say what `evaluate(StatementPattern, Collection)` produces; the methods compute it
 * with its nested loops and `convert`'s successive `addBinding` calls, and are proved
 * equal to them.
 */
module PatternEvaluation {
  import opened Wrappers
  import opened Rdf

  /** The subclass of StatementPattern: plain, FixedStatementPattern, or TransitivePropertySP. */
  datatype Kind = Ordinary | Fixed(statements: seq<Statement>) | Transitive

  /** A statement pattern: four optional slot variables and its kind. */
  datatype Pattern = Pattern(kind: Kind, subj: Option<Var>, pred: Option<Var>, obj: Option<Var>, ctx: Option<Var>)

  /** A statement whose absent slots are wildcards, as sent to the store or to the closure resolver. */
  datatype Lookup = Lookup(subj: Option<Value>, pred: Option<Value>, obj: Option<Value>, ctx: Option<Value>)

  /** A matched statement paired with the binding set it is to extend. */
  type Entry = (Statement, BindingSet)

  /** What evaluation can throw: a failed cast to Resource or IRI, a failed store query, a failed closure computation. */
  datatype EvalError = ClassCast | StoreFailure | InferenceFailure

  /**
   * The collaborators the evaluator cannot see: the store's batched lookup (one call
   * for a whole batch of lookups) and the inference engine's transitive closure.
   * `None` stands for the exception each may throw.
   */
  datatype Backend = Backend(
    getStatements: seq<(Lookup, BindingSet)> -> Option<seq<Entry>>,
    findTransitiveProperty: Lookup -> Option<seq<Statement>>)

  // ---------------------------------------------------------------------------
  // Variable values

  /** `getVarValue(var, binding)`: null for a missing variable, else its own value, else the binding's value. */
  function VarValue(v: Option<Var>, b: BindingSet): Option<Value>
  {
    if v.None? then None
    else if v.value.value.Some? then v.value.value
    else if v.value.name in b then Some(b[v.value.name])
    else None
  }

  /** `getVarValue(var)`: the variable's own value; bindings are not consulted. */
  function ConstValue(v: Option<Var>): Option<Value>
  {
    if v.None? then None else v.value.value
  }

  /** A variable that carries a value is not affected by the binding set. */
  lemma ValueOverridesBinding(v: Option<Var>, b1: BindingSet, b2: BindingSet)
    requires v.Some? && v.value.value.Some?
    ensures VarValue(v, b1) == VarValue(v, b2) == ConstValue(v)
  {
  }

  // ---------------------------------------------------------------------------
  // Fixed patterns: in-memory filtering

  /** A slot value admits a statement component when it is unbound or equal to it. */
  predicate Agrees(v: Option<Value>, x: Value) { v.None? || v.value == x }

  /** Subject, predicate and object each unbound or equal; the context is not compared. */
  predicate Admits(sp: Pattern, b: BindingSet, st: Statement)
  {
    && Agrees(VarValue(sp.subj, b), st.subj)
    && Agrees(VarValue(sp.pred, b), st.pred)
    && Agrees(VarValue(sp.obj, b), st.obj)
  }

  /** The cast of the context value to Resource, done for every binding before it is used. */
  predicate ContextCasts(sp: Pattern, b: BindingSet) { CastsToResource(VarValue(sp.ctx, b)) }

  /** The inner loop of the fixed branch: the admitted statements of `sts`, in order, paired with `b`. */
  function FixedFor(sp: Pattern, b: BindingSet, sts: seq<Statement>): seq<Entry>
    decreases |sts|
  {
    if sts == [] then []
    else FixedFor(sp, b, sts[..|sts| - 1])
         + (if Admits(sp, b, sts[|sts| - 1]) then [(sts[|sts| - 1], b)] else [])
  }

  /** The fixed branch: bindings in the outer loop, statements in the inner one; a failed context cast throws. */
  function FixedEntries(sp: Pattern, sts: seq<Statement>, bs: seq<BindingSet>): Result<seq<Entry>, EvalError>
    decreases |bs|
  {
    if bs == [] then Ok([])
    else
      match FixedEntries(sp, sts, bs[..|bs| - 1])
      case Fail(e) => Fail(e)
      case Ok(prev) =>
        if !ContextCasts(sp, bs[|bs| - 1]) then Fail(ClassCast)
        else Ok(prev + FixedFor(sp, bs[|bs| - 1], sts))
  }

  lemma {:induction false} FixedForMember(sp: Pattern, b: BindingSet, sts: seq<Statement>, e: Entry)
    ensures e in FixedFor(sp, b, sts) <==> e.0 in sts && e.1 == b && Admits(sp, b, e.0)
    decreases |sts|
  {
    if sts != [] {
      var init := sts[..|sts| - 1];
      FixedForMember(sp, b, init, e);
      assert sts == init + [sts[|sts| - 1]];
    }
  }

  /** The fixed branch emits `(st, b)` exactly when `b` is an incoming binding, `st` a listed statement, and `b` admits `st`. */
  lemma {:induction false} FixedMember(sp: Pattern, sts: seq<Statement>, bs: seq<BindingSet>, st: Statement, b: BindingSet)
    requires FixedEntries(sp, sts, bs).Ok?
    ensures (st, b) in FixedEntries(sp, sts, bs).value <==> b in bs && st in sts && Admits(sp, b, st)
    decreases |bs|
  {
    if bs != [] {
      var init := bs[..|bs| - 1];
      FixedMember(sp, sts, init, st, b);
      FixedForMember(sp, bs[|bs| - 1], sts, (st, b));
      assert bs == init + [bs[|bs| - 1]];
    }
  }

  /** The fixed branch throws exactly when some binding's context value is not a Resource. */
  lemma {:induction false} FixedFailure(sp: Pattern, sts: seq<Statement>, bs: seq<BindingSet>)
    ensures FixedEntries(sp, sts, bs).Fail? <==> exists b :: b in bs && !ContextCasts(sp, b)
    ensures FixedEntries(sp, sts, bs).Fail? ==> FixedEntries(sp, sts, bs).error == ClassCast
    decreases |bs|
  {
    if bs != [] {
      var init := bs[..|bs| - 1];
      FixedFailure(sp, sts, init);
      assert bs == init + [bs[|bs| - 1]];
    }
  }

  /** Bindings are the outer loop: the entries for `bs1 + bs2` are those for `bs1` followed by those for `bs2`. */
  lemma {:induction false} FixedSplit(sp: Pattern, sts: seq<Statement>, bs1: seq<BindingSet>, bs2: seq<BindingSet>)
    ensures FixedEntries(sp, sts, bs1 + bs2) == Then(FixedEntries(sp, sts, bs1), FixedEntries(sp, sts, bs2))
    decreases |bs2|
  {
    if bs2 == [] {
      assert bs1 + bs2 == bs1;
      var a := FixedEntries(sp, sts, bs1);
      if a.Ok? {
        assert a.value + [] == a.value;
      }
    } else {
      var init, last := bs2[..|bs2| - 1], bs2[|bs2| - 1];
      FixedSplit(sp, sts, bs1, init);
      assert (bs1 + bs2)[..|bs1 + bs2| - 1] == bs1 + init;
      assert (bs1 + bs2)[|bs1 + bs2| - 1] == last;
      var a, b := FixedEntries(sp, sts, bs1), FixedEntries(sp, sts, init);
      if a.Ok? && b.Ok? && ContextCasts(sp, last) {
        assert a.value + b.value + FixedFor(sp, last, sts) == a.value + (b.value + FixedFor(sp, last, sts));
      }
    }
  }

  method CollectFixed(sp: Pattern, sts: seq<Statement>, bindings: seq<BindingSet>) returns (r: Result<seq<Entry>, EvalError>)
    ensures r == FixedEntries(sp, sts, bindings)
  {
    var coll: seq<Entry> := [];
    var i := 0;
    while i < |bindings|
      invariant 0 <= i <= |bindings|
      invariant FixedEntries(sp, sts, bindings[..i]) == Ok(coll)
    {
      var binding := bindings[i];
      var subjValue := VarValue(sp.subj, binding);
      var predValue := VarValue(sp.pred, binding);
      var objValue := VarValue(sp.obj, binding);
      assert bindings[..i + 1][..i] == bindings[..i];
      if !CastsToResource(VarValue(sp.ctx, binding)) {
        FixedSplit(sp, sts, bindings[..i + 1], bindings[i + 1..]);
        assert bindings[..i + 1] + bindings[i + 1..] == bindings;
        return Fail(ClassCast);
      }
      ghost var prev := coll;
      var j := 0;
      while j < |sts|
        invariant 0 <= j <= |sts|
        invariant coll == prev + FixedFor(sp, binding, sts[..j])
      {
        var st := sts[j];
        assert sts[..j + 1][..j] == sts[..j];
        if !((subjValue.Some? && subjValue.value != st.subj) ||
             (predValue.Some? && predValue.value != st.pred) ||
             (objValue.Some? && objValue.value != st.obj)) {
          coll := coll + [(st, binding)];
        }
        j := j + 1;
      }
      assert sts[..j] == sts;
      i := i + 1;
    }
    assert bindings[..i] == bindings;
    r := Ok(coll);
  }

  // ---------------------------------------------------------------------------
  // Transitive patterns: closure times bindings

  /** The transitive branch is taken for a TransitivePropertySP with a predicate variable and a constant subject or object. */
  predicate TakesTransitiveBranch(sp: Pattern)
  {
    && sp.kind.Transitive?
    && ((sp.subj.Some? && sp.subj.value.value.Some?) || (sp.obj.Some? && sp.obj.value.value.Some?))
    && sp.pred.Some?
  }

  /** The closure request, built from the variables' own values; the casts to Resource and IRI may throw. */
  function ClosureQuery(sp: Pattern): Result<Lookup, EvalError>
  {
    var s := ConstValue(sp.subj);
    var p := ConstValue(sp.pred);
    var o := ConstValue(sp.obj);
    var c := ConstValue(sp.ctx);
    if !CastsToResource(s) || !CastsToIRI(p) || !CastsToResource(c) then Fail(ClassCast)
    else Ok(Lookup(s, p, o, c))
  }

  /** Every closure statement paired with `b`, in closure order. */
  function Tag(sts: seq<Statement>, b: BindingSet): (r: seq<Entry>)
    ensures |r| == |sts|
    ensures forall k :: 0 <= k < |r| ==> r[k] == (sts[k], b)
  {
    seq(|sts|, k requires 0 <= k < |sts| => (sts[k], b))
  }

  /** The cross product of the nested loops: bindings outer, closure statements inner. */
  function Pairs(sts: seq<Statement>, bs: seq<BindingSet>): seq<Entry>
    decreases |bs|
  {
    if bs == [] then [] else Pairs(sts, bs[..|bs| - 1]) + Tag(sts, bs[|bs| - 1])
  }

  /** The transitive branch: the closure is computed once, from the pattern alone, and crossed with every binding. */
  function TransitiveEntries(sp: Pattern, bs: seq<BindingSet>, be: Backend): Result<seq<Entry>, EvalError>
  {
    match ClosureQuery(sp)
    case Fail(e) => Fail(e)
    case Ok(q) =>
      match be.findTransitiveProperty(q)
      case None => Fail(InferenceFailure)
      case Some(sts) => Ok(Pairs(sts, bs))
  }

  /** The cross product has `|bs| * |sts|` entries. */
  lemma {:induction false} PairsCount(sts: seq<Statement>, bs: seq<BindingSet>)
    ensures |Pairs(sts, bs)| == |bs| * |sts|
    decreases |bs|
  {
    if bs != [] {
      var n := |bs| - 1;
      PairsCount(sts, bs[..n]);
      MulSucc(n, |sts|);
    }
  }

  lemma MulSucc(n: nat, m: nat)
    ensures (n + 1) * m == n * m + m
  {
  }

  /** The cross product holds `(st, b)` exactly when `st` is a closure statement and `b` an incoming binding. */
  lemma {:induction false} PairsMember(sts: seq<Statement>, bs: seq<BindingSet>, st: Statement, b: BindingSet)
    ensures (st, b) in Pairs(sts, bs) <==> st in sts && b in bs
    decreases |bs|
  {
    if bs != [] {
      var init, last := bs[..|bs| - 1], bs[|bs| - 1];
      PairsMember(sts, init, st, b);
      assert bs == init + [last];
      assert (st, b) in Tag(sts, last) <==> st in sts && b == last;
    }
  }

  /** Every pair of the cross product carries one of the bindings. */
  lemma {:induction false} PairsFromBindings(sts: seq<Statement>, bs: seq<BindingSet>, e: Entry)
    requires e in Pairs(sts, bs)
    ensures e.1 in bs
    decreases |bs|
  {
    var init := bs[..|bs| - 1];
    if e !in Tag(sts, bs[|bs| - 1]) {
      PairsFromBindings(sts, init, e);
    }
  }

  /** Bindings are the outer loop of the cross product as well. */
  lemma {:induction false} PairsSplit(sts: seq<Statement>, bs1: seq<BindingSet>, bs2: seq<BindingSet>)
    ensures Pairs(sts, bs1 + bs2) == Pairs(sts, bs1) + Pairs(sts, bs2)
    decreases |bs2|
  {
    if bs2 == [] {
      assert bs1 + bs2 == bs1;
    } else {
      var init := bs2[..|bs2| - 1];
      PairsSplit(sts, bs1, init);
      assert (bs1 + bs2)[..|bs1 + bs2| - 1] == bs1 + init;
    }
  }

  method CollectTransitive(sts: seq<Statement>, bindings: seq<BindingSet>) returns (coll: seq<Entry>)
    ensures coll == Pairs(sts, bindings)
  {
    coll := [];
    var i := 0;
    while i < |bindings|
      invariant 0 <= i <= |bindings|
      invariant coll == Pairs(sts, bindings[..i])
    {
      assert bindings[..i + 1][..i] == bindings[..i];
      ghost var prev := coll;
      var j := 0;
      while j < |sts|
        invariant 0 <= j <= |sts|
        invariant coll == prev + Tag(sts[..j], bindings[i])
      {
        assert Tag(sts[..j + 1], bindings[i]) == Tag(sts[..j], bindings[i]) + [(sts[j], bindings[i])];
        coll := coll + [(sts[j], bindings[i])];
        j := j + 1;
      }
      assert sts[..j] == sts;
      i := i + 1;
    }
    assert bindings[..i] == bindings;
  }

  // ---------------------------------------------------------------------------
  // Ordinary patterns: one batched store lookup

  /** A binding is skipped when its subject value is bound but not a Resource, or its predicate bound but not an IRI. */
  predicate Skipped(sp: Pattern, b: BindingSet)
  {
    var s := VarValue(sp.subj, b);
    var p := VarValue(sp.pred, b);
    (s.Some? && !s.value.IsResource()) || (p.Some? && !p.value.IRI?)
  }

  /** The lookup for one binding: every slot's value, absent ones as wildcards. */
  function LookupFor(sp: Pattern, b: BindingSet): Lookup
  {
    Lookup(VarValue(sp.subj, b), VarValue(sp.pred, b), VarValue(sp.obj, b), VarValue(sp.ctx, b))
  }

  /**
   * The lookups of the ordinary branch, one per binding that is not skipped. The context
   * cast is made before the skip test, so a non-Resource context throws even for a binding
   * that would be skipped.
   */
  function OrdinaryLookups(sp: Pattern, bs: seq<BindingSet>): Result<seq<(Lookup, BindingSet)>, EvalError>
    decreases |bs|
  {
    if bs == [] then Ok([])
    else
      match OrdinaryLookups(sp, bs[..|bs| - 1])
      case Fail(e) => Fail(e)
      case Ok(prev) =>
        var b := bs[|bs| - 1];
        if !ContextCasts(sp, b) then Fail(ClassCast)
        else if Skipped(sp, b) then Ok(prev)
        else Ok(prev + [(LookupFor(sp, b), b)])
  }

  /** The ordinary branch: no lookups means no store call and no results; otherwise one batched call. */
  function OrdinaryEntries(sp: Pattern, bs: seq<BindingSet>, be: Backend): Result<seq<Entry>, EvalError>
  {
    match OrdinaryLookups(sp, bs)
    case Fail(e) => Fail(e)
    case Ok(stmts) =>
      if |stmts| == 0 then Ok([])
      else
        match be.getStatements(stmts)
        case None => Fail(StoreFailure)
        case Some(es) => Ok(es)
  }

  /** The batch holds `(q, b)` exactly when `b` is an incoming binding that is not skipped and `q` is its lookup. */
  lemma {:induction false} LookupMember(sp: Pattern, bs: seq<BindingSet>, q: Lookup, b: BindingSet)
    requires OrdinaryLookups(sp, bs).Ok?
    ensures (q, b) in OrdinaryLookups(sp, bs).value <==> b in bs && !Skipped(sp, b) && q == LookupFor(sp, b)
    decreases |bs|
  {
    if bs != [] {
      var init := bs[..|bs| - 1];
      LookupMember(sp, init, q, b);
      assert bs == init + [bs[|bs| - 1]];
    }
  }

  /** The lookups fail exactly when some binding's context value is not a Resource. */
  lemma {:induction false} LookupFailure(sp: Pattern, bs: seq<BindingSet>)
    ensures OrdinaryLookups(sp, bs).Fail? <==> exists b :: b in bs && !ContextCasts(sp, b)
    ensures OrdinaryLookups(sp, bs).Fail? ==> OrdinaryLookups(sp, bs).error == ClassCast
    decreases |bs|
  {
    if bs != [] {
      var init := bs[..|bs| - 1];
      LookupFailure(sp, init);
      assert bs == init + [bs[|bs| - 1]];
    }
  }

  lemma {:induction false} LookupSplit(sp: Pattern, bs1: seq<BindingSet>, bs2: seq<BindingSet>)
    ensures OrdinaryLookups(sp, bs1 + bs2) == Then(OrdinaryLookups(sp, bs1), OrdinaryLookups(sp, bs2))
    decreases |bs2|
  {
    if bs2 == [] {
      assert bs1 + bs2 == bs1;
      var a := OrdinaryLookups(sp, bs1);
      if a.Ok? {
        assert a.value + [] == a.value;
      }
    } else {
      var init, last := bs2[..|bs2| - 1], bs2[|bs2| - 1];
      LookupSplit(sp, bs1, init);
      assert (bs1 + bs2)[..|bs1 + bs2| - 1] == bs1 + init;
      assert (bs1 + bs2)[|bs1 + bs2| - 1] == last;
      var a, b := OrdinaryLookups(sp, bs1), OrdinaryLookups(sp, init);
      if a.Ok? && b.Ok? && ContextCasts(sp, last) && !Skipped(sp, last) {
        assert a.value + b.value + [(LookupFor(sp, last), last)] == a.value + (b.value + [(LookupFor(sp, last), last)]);
      }
    }
  }

  /** When every binding is skipped (and no context cast fails), the result is empty whatever the store would answer. */
  lemma AllSkippedIsEmpty(sp: Pattern, bs: seq<BindingSet>, be: Backend)
    requires forall b :: b in bs ==> ContextCasts(sp, b) && Skipped(sp, b)
    ensures OrdinaryEntries(sp, bs, be) == Ok([])
  {
    LookupFailure(sp, bs);
    var stmts := OrdinaryLookups(sp, bs).value;
    if |stmts| > 0 {
      LookupMember(sp, bs, stmts[0].0, stmts[0].1);
    }
  }

  method CollectLookups(sp: Pattern, bindings: seq<BindingSet>) returns (r: Result<seq<(Lookup, BindingSet)>, EvalError>)
    ensures r == OrdinaryLookups(sp, bindings)
  {
    var stmts: seq<(Lookup, BindingSet)> := [];
    var i := 0;
    while i < |bindings|
      invariant 0 <= i <= |bindings|
      invariant OrdinaryLookups(sp, bindings[..i]) == Ok(stmts)
    {
      var binding := bindings[i];
      var subjValue := VarValue(sp.subj, binding);
      var predValue := VarValue(sp.pred, binding);
      var objValue := VarValue(sp.obj, binding);
      var contxtValue := VarValue(sp.ctx, binding);
      assert bindings[..i + 1][..i] == bindings[..i];
      if !CastsToResource(contxtValue) {
        LookupSplit(sp, bindings[..i + 1], bindings[i + 1..]);
        assert bindings[..i + 1] + bindings[i + 1..] == bindings;
        return Fail(ClassCast);
      }
      if !((subjValue.Some? && !subjValue.value.IsResource()) || (predValue.Some? && !predValue.value.IRI?)) {
        stmts := stmts + [(Lookup(subjValue, predValue, objValue, contxtValue), binding)];
      }
      i := i + 1;
    }
    assert bindings[..i] == bindings;
    r := Ok(stmts);
  }

  // ---------------------------------------------------------------------------
  // The three branches together

  /** The matched pairs, by branch: fixed first, then transitive with a constant endpoint, else ordinary. */
  function PatternEntries(sp: Pattern, bs: seq<BindingSet>, be: Backend): Result<seq<Entry>, EvalError>
  {
    if sp.kind.Fixed? then FixedEntries(sp, sp.kind.statements, bs)
    else if TakesTransitiveBranch(sp) then TransitiveEntries(sp, bs, be)
    else OrdinaryEntries(sp, bs, be)
  }

  lemma {:induction false} LookupsIgnoreKind(sp: Pattern, k: Kind, bs: seq<BindingSet>)
    ensures OrdinaryLookups(sp.(kind := k), bs) == OrdinaryLookups(sp, bs)
    decreases |bs|
  {
    if bs != [] {
      LookupsIgnoreKind(sp, k, bs[..|bs| - 1]);
    }
  }

  /** A transitive pattern without a constant endpoint is evaluated exactly as an ordinary one; no error is raised. */
  lemma TransitiveFallsThrough(sp: Pattern, bs: seq<BindingSet>, be: Backend)
    requires sp.kind.Transitive? && !TakesTransitiveBranch(sp)
    ensures PatternEntries(sp, bs, be) == PatternEntries(sp.(kind := Ordinary), bs, be)
  {
    LookupsIgnoreKind(sp, Ordinary, bs);
  }

  /** With a closure of `sts`, the transitive branch yields `|bs| * |sts|` pairs, whatever the bindings hold. */
  lemma TransitiveCount(sp: Pattern, bs: seq<BindingSet>, be: Backend, sts: seq<Statement>)
    requires TakesTransitiveBranch(sp)
    requires ClosureQuery(sp).Ok? && be.findTransitiveProperty(ClosureQuery(sp).value) == Some(sts)
    ensures PatternEntries(sp, bs, be).Ok?
    ensures |PatternEntries(sp, bs, be).value| == |bs| * |sts|
    ensures forall st, b :: (st, b) in PatternEntries(sp, bs, be).value <==> st in sts && b in bs
  {
    PairsCount(sts, bs);
    forall st, b ensures (st, b) in PatternEntries(sp, bs, be).value <==> st in sts && b in bs {
      PairsMember(sts, bs, st, b);
    }
  }

  // ---------------------------------------------------------------------------
  // Conversion of a matched pair back into a binding set

  /** The slot variable is present, not constant, and its name not yet bound in `r`. */
  predicate Unbound(v: Option<Var>, r: BindingSet) { v.Some? && !v.value.constant && v.value.name !in r }

  /** The slot can bind `n`: it is a non-constant variable named `n`. */
  predicate CanBind(v: Option<Var>, n: string) { v.Some? && !v.value.constant && v.value.name == n }

  /** One `addBinding` step: bind the slot variable to `x` if it is unbound. */
  function Bind(r: BindingSet, v: Option<Var>, x: Value): BindingSet
  {
    if Unbound(v, r) then r[v.value.name := x] else r
  }

  /**
   * `convert`: the incoming binding set extended, slot by slot in the order subject,
   * predicate, object, context, by every non-constant variable not yet bound. The
   * context is bound only when the statement has one.
   */
  function Converted(sp: Pattern, e: Entry): (r: BindingSet)
    ensures forall n :: n in e.1 ==> n in r && r[n] == e.1[n]
    ensures forall n :: n in r && n !in e.1 ==>
      CanBind(sp.subj, n) || CanBind(sp.pred, n) || CanBind(sp.obj, n) || (CanBind(sp.ctx, n) && e.0.context.Some?)
    ensures Unbound(sp.subj, e.1) ==> sp.subj.value.name in r && r[sp.subj.value.name] == e.0.subj
    ensures Unbound(sp.pred, e.1) && !CanBind(sp.subj, sp.pred.value.name) ==>
      sp.pred.value.name in r && r[sp.pred.value.name] == e.0.pred
    ensures Unbound(sp.obj, e.1) && !CanBind(sp.subj, sp.obj.value.name) && !CanBind(sp.pred, sp.obj.value.name) ==>
      sp.obj.value.name in r && r[sp.obj.value.name] == e.0.obj
    ensures Unbound(sp.ctx, e.1) && !CanBind(sp.subj, sp.ctx.value.name) && !CanBind(sp.pred, sp.ctx.value.name)
            && !CanBind(sp.obj, sp.ctx.value.name) ==>
      (sp.ctx.value.name in r <==> e.0.context.Some?) &&
      (e.0.context.Some? ==> r[sp.ctx.value.name] == e.0.context.value)
  {
    var st := e.0;
    var r1 := Bind(e.1, sp.subj, st.subj);
    var r2 := Bind(r1, sp.pred, st.pred);
    var r3 := Bind(r2, sp.obj, st.obj);
    if st.context.Some? then Bind(r3, sp.ctx, st.context.value) else r3
  }

  /**
   * A variable repeated in the subject and object slots is bound from the subject
   * alone: the object slot finds the name already bound and the statement's object is
   * never compared with it.
   */
  lemma RepeatedVariableTakesSubject(sp: Pattern, st: Statement, b: BindingSet)
    requires Unbound(sp.subj, b) && sp.obj.Some? && sp.obj.value.name == sp.subj.value.name
    ensures Converted(sp, (st, b))[sp.subj.value.name] == st.subj
  {
  }

  method Convert(sp: Pattern, stbs: Entry) returns (result: BindingSet)
    ensures result == Converted(sp, stbs)
  {
    var st := stbs.0;
    result := stbs.1;
    if sp.subj.Some? && !sp.subj.value.constant && sp.subj.value.name !in result {
      result := result[sp.subj.value.name := st.subj];
    }
    if sp.pred.Some? && !sp.pred.value.constant && sp.pred.value.name !in result {
      result := result[sp.pred.value.name := st.pred];
    }
    if sp.obj.Some? && !sp.obj.value.constant && sp.obj.value.name !in result {
      result := result[sp.obj.value.name := st.obj];
    }
    if sp.ctx.Some? && !sp.ctx.value.constant && sp.ctx.value.name !in result && st.context.Some? {
      result := result[sp.ctx.value.name := st.context.value];
    }
  }

  /** Every matched pair converted, in order (the ConvertingIteration). */
  function ConvertAll(sp: Pattern, es: seq<Entry>): (r: seq<BindingSet>)
    ensures |r| == |es|
    ensures forall i :: 0 <= i < |es| ==> r[i] == Converted(sp, es[i])
  {
    seq(|es|, i requires 0 <= i < |es| => Converted(sp, es[i]))
  }

  /** The binding sets `evaluate(sp, bindings)` produces. */
  function Results(sp: Pattern, bs: seq<BindingSet>, be: Backend): Result<seq<BindingSet>, EvalError>
  {
    match PatternEntries(sp, bs, be)
    case Fail(e) => Fail(e)
    case Ok(es) => Ok(ConvertAll(sp, es))
  }

  method EvaluatePattern(sp: Pattern, bindings: seq<BindingSet>, be: Backend) returns (r: Result<seq<BindingSet>, EvalError>)
    ensures r == Results(sp, bindings, be)
  {
    var iter: seq<Entry>;
    if sp.kind.Fixed? {
      var coll := CollectFixed(sp, sp.kind.statements, bindings);
      if coll.Fail? {
        return Fail(coll.error);
      }
      iter := coll.value;
    } else if TakesTransitiveBranch(sp) {
      var q := ClosureQuery(sp);
      if q.Fail? {
        return Fail(q.error);
      }
      var sts := be.findTransitiveProperty(q.value);
      if sts.None? {
        return Fail(InferenceFailure);
      }
      iter := CollectTransitive(sts.value, bindings);
    } else {
      var stmts := CollectLookups(sp, bindings);
      if stmts.Fail? {
        return Fail(stmts.error);
      }
      if |stmts.value| == 0 {
        return Ok([]);
      }
      var found := be.getStatements(stmts.value);
      if found.None? {
        return Fail(StoreFailure);
      }
      iter := found.value;
    }
    assert PatternEntries(sp, bindings, be) == Ok(iter);
    var out: seq<BindingSet> := [];
    var k := 0;
    while k < |iter|
      invariant 0 <= k <= |iter|
      invariant out == ConvertAll(sp, iter[..k])
    {
      var bs := Convert(sp, iter[k]);
      out := out + [bs];
      k := k + 1;
    }
    assert iter[..k] == iter;
    r := Ok(out);
  }

  // ---------------------------------------------------------------------------
  // Consistency with the incoming bindings

  /** `r` extends `b`: every name bound in `b` is bound in `r` to the same value. */
  predicate Extends(r: BindingSet, b: BindingSet) { forall n :: n in b ==> n in r && r[n] == b[n] }

  /** The store answers each lookup only with the binding set it was sent with. */
  ghost predicate AnswersWithQueriedBindings(be: Backend)
  {
    forall qs: seq<(Lookup, BindingSet)>, i ::
      be.getStatements(qs).Some? && 0 <= i < |be.getStatements(qs).value| ==>
        exists k :: 0 <= k < |qs| && qs[k].1 == be.getStatements(qs).value[i].1
  }

  /** Every matched pair carries one of the incoming binding sets. */
  lemma EntriesFromInputs(sp: Pattern, bs: seq<BindingSet>, be: Backend, i: int)
    requires AnswersWithQueriedBindings(be)
    requires PatternEntries(sp, bs, be).Ok? && 0 <= i < |PatternEntries(sp, bs, be).value|
    ensures PatternEntries(sp, bs, be).value[i].1 in bs
  {
    var es := PatternEntries(sp, bs, be).value;
    if sp.kind.Fixed? {
      FixedMember(sp, sp.kind.statements, bs, es[i].0, es[i].1);
    } else if TakesTransitiveBranch(sp) {
      var sts := be.findTransitiveProperty(ClosureQuery(sp).value).value;
      PairsFromBindings(sts, bs, es[i]);
    } else {
      var stmts := OrdinaryLookups(sp, bs).value;
      var k :| 0 <= k < |stmts| && stmts[k].1 == es[i].1;
      LookupMember(sp, bs, stmts[k].0, stmts[k].1);
    }
  }

  /**
   * No output rebinds a variable: every binding set `evaluate(sp, bs)` produces extends
   * one of the incoming binding sets.
   */
  lemma ResultsExtendInputs(sp: Pattern, bs: seq<BindingSet>, be: Backend, i: int)
    requires AnswersWithQueriedBindings(be)
    requires Results(sp, bs, be).Ok? && 0 <= i < |Results(sp, bs, be).value|
    ensures exists k :: 0 <= k < |bs| && Extends(Results(sp, bs, be).value[i], bs[k])
  {
    var es := PatternEntries(sp, bs, be).value;
    EntriesFromInputs(sp, bs, be, i);
    var k :| 0 <= k < |bs| && bs[k] == es[i].1;
    assert Results(sp, bs, be).value[i] == Converted(sp, es[i]);
  }

  // ---------------------------------------------------------------------------
  // Batching: one evaluation over a batch against one per binding

  /** What a store answers when its batched lookup is the concatenation of single lookups. */
  function EachLookup(single: (Lookup, BindingSet) -> seq<Entry>, qs: seq<(Lookup, BindingSet)>): seq<Entry>
    decreases |qs|
  {
    if qs == [] then [] else EachLookup(single, qs[..|qs| - 1]) + single(qs[|qs| - 1].0, qs[|qs| - 1].1)
  }

  /** The store answers a batch as the single lookups would, in batch order, and does not fail. */
  ghost predicate AnswersPerLookup(be: Backend, single: (Lookup, BindingSet) -> seq<Entry>)
  {
    forall qs :: |qs| > 0 ==> be.getStatements(qs) == Some(EachLookup(single, qs))
  }

  lemma {:induction false} EachLookupSplit(single: (Lookup, BindingSet) -> seq<Entry>, q1: seq<(Lookup, BindingSet)>, q2: seq<(Lookup, BindingSet)>)
    ensures EachLookup(single, q1 + q2) == EachLookup(single, q1) + EachLookup(single, q2)
    decreases |q2|
  {
    if q2 == [] {
      assert q1 + q2 == q1;
    } else {
      var init := q2[..|q2| - 1];
      EachLookupSplit(single, q1, init);
      assert (q1 + q2)[..|q1 + q2| - 1] == q1 + init;
      assert (q1 + q2)[|q1 + q2| - 1] == q2[|q2| - 1];
    }
  }

  lemma ConvertAllSplit(sp: Pattern, e1: seq<Entry>, e2: seq<Entry>)
    ensures ConvertAll(sp, e1 + e2) == ConvertAll(sp, e1) + ConvertAll(sp, e2)
  {
  }

  lemma EntriesSplit(sp: Pattern, bs1: seq<BindingSet>, bs2: seq<BindingSet>, be: Backend, single: (Lookup, BindingSet) -> seq<Entry>)
    requires AnswersPerLookup(be, single)
    ensures PatternEntries(sp, bs1 + bs2, be) == Then(PatternEntries(sp, bs1, be), PatternEntries(sp, bs2, be))
  {
    if sp.kind.Fixed? {
      FixedSplit(sp, sp.kind.statements, bs1, bs2);
    } else if TakesTransitiveBranch(sp) {
      if ClosureQuery(sp).Ok? && be.findTransitiveProperty(ClosureQuery(sp).value).Some? {
        PairsSplit(be.findTransitiveProperty(ClosureQuery(sp).value).value, bs1, bs2);
      }
    } else {
      LookupSplit(sp, bs1, bs2);
      var l1, l2 := OrdinaryLookups(sp, bs1), OrdinaryLookups(sp, bs2);
      if l1.Ok? && l2.Ok? {
        EachLookupSplit(single, l1.value, l2.value);
        if |l1.value| == 0 {
          assert l1.value + l2.value == l2.value;
        } else if |l2.value| == 0 {
          assert l1.value + l2.value == l1.value;
          assert EachLookup(single, l1.value) + [] == EachLookup(single, l1.value);
        }
      }
    }
  }

  /** Evaluating a concatenated batch gives the two batches' results one after the other. */
  lemma ResultsSplit(sp: Pattern, bs1: seq<BindingSet>, bs2: seq<BindingSet>, be: Backend, single: (Lookup, BindingSet) -> seq<Entry>)
    requires AnswersPerLookup(be, single)
    ensures Results(sp, bs1 + bs2, be) == Then(Results(sp, bs1, be), Results(sp, bs2, be))
  {
    EntriesSplit(sp, bs1, bs2, be, single);
    var e1, e2 := PatternEntries(sp, bs1, be), PatternEntries(sp, bs2, be);
    if e1.Ok? && e2.Ok? {
      ConvertAllSplit(sp, e1.value, e2.value);
    }
  }

  /** The results of evaluating the pattern once per binding, read one after the other. */
  function PerBinding(sp: Pattern, bs: seq<BindingSet>, be: Backend): Result<seq<BindingSet>, EvalError>
    decreases |bs|
  {
    if bs == [] then Ok([]) else Then(PerBinding(sp, bs[..|bs| - 1], be), Results(sp, [bs[|bs| - 1]], be))
  }

  /** An empty batch yields nothing, except for a transitive pattern whose closure request throws. */
  lemma EmptyBatch(sp: Pattern, be: Backend)
    ensures Results(sp, [], be).Fail? <==>
      TakesTransitiveBranch(sp) && !(ClosureQuery(sp).Ok? && be.findTransitiveProperty(ClosureQuery(sp).value).Some?)
    ensures Results(sp, [], be).Ok? ==> Results(sp, [], be).value == []
  {
  }

  /**
   * Batching is transparent: over a store that answers per lookup, evaluating the
   * pattern once over the whole batch gives the same rows, in the same order, as
   * evaluating it once per binding.
   */
  lemma ThenOkEmpty<T, E>(r: Result<seq<T>, E>)
    ensures Then(Ok([]), r) == r
  {
    if r.Ok? {
      assert [] + r.value == r.value;
    }
  }

  lemma {:induction false} BatchedEqualsPerBinding(sp: Pattern, bs: seq<BindingSet>, be: Backend, single: (Lookup, BindingSet) -> seq<Entry>)
    requires AnswersPerLookup(be, single)
    requires |bs| > 0 || Results(sp, [], be) == Ok([])
    ensures Results(sp, bs, be) == PerBinding(sp, bs, be)
    decreases |bs|
  {
    if bs != [] {
      var init := bs[..|bs| - 1];
      assert init + [bs[|bs| - 1]] == bs;
      if init == [] {
        ThenOkEmpty(Results(sp, bs, be));
      } else {
        BatchedEqualsPerBinding(sp, init, be, single);
        ResultsSplit(sp, init, [bs[|bs| - 1]], be, single);
      }
    }
  }
}
