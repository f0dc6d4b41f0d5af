/**
 * Forward-chaining execution of one CONSTRUCT rule against the MongoDB store: the rule is
 * compiled to an aggregation pipeline when its whole query becomes one pipeline node, the
 * streamed documents that are not yet in the store are staged into a batch writer and
 * flushed, and the rule's execution-time watermark moves forward. A rule that cannot be
 * compiled is handed to a backup strategy, after which derivation levels can no longer be
 * trusted.
 */
module ForwardChain {
  import opened Wrappers

  /** A rule, by identity; the execution-time map is keyed by it. */
  datatype Rule = Rule(id: nat)

  /** A deserialized statement, the key of the existence query. */
  datatype Triple = Triple(subj: string, pred: string, obj: string)

  /** A streamed document; `metadata` is its statement-metadata field. */
  datatype Doc = Doc(id: nat, metadata: string)

  /** What the pipeline visitor leaves under the query root. */
  datatype Node = PipelineNode(stages: seq<string>) | OtherOperator

  /** The outcome of visiting the rule's query: an exception, or the rewritten tree. */
  datatype Rewrite = VisitorThrew | Rewritten(rootArg: Node)

  /** A configured pipeline node, as its triple pipeline is requested. */
  datatype Plan = Plan(
    stages: seq<string>,
    distinct: bool,
    sourceLevel: int,
    sourceTimestamp: Option<int>,
    tripleTimestamp: int)

  /** The documents of an aggregation: all of them, or those before the cursor threw. */
  datatype Stream = Complete(docs: seq<Doc>) | Broken(prefix: seq<Doc>)

  datatype ChainError =
    | Unsupported            // no pipeline and no backup strategy
    | StreamFailure          // the aggregation cursor threw
    | WriterFailure          // flushing or shutting down the batch writer threw
    | NullBackup             // shutting down a missing backup strategy
    | BackupFailure(reason: string)

  /**
   * The collaborators the strategy calls but whose code is not modelled: the pipeline
   * visitor, the aggregation, document deserialization, the existence query (None when it
   * throws), the backup strategy, and the batch writer's failure outcomes.
   */
  datatype Collaborators = Collaborators(
    transform: Rule -> Rewrite,
    aggregate: Plan -> Stream,
    deserialize: Doc -> Triple,
    query: Triple -> Option<seq<Triple>>,
    backup: (Rule, string) -> Result<nat, ChainError>,
    queueFails: Doc -> bool,
    flushFails: bool)

  /** The pipeline `toPipeline` yields: only a pipeline node directly under the root. */
  function PipelineFor(rw: Rewrite, rule: Rule, sourceLevel: int, timestamp: int, times: map<Rule, int>): (r: Option<Plan>)
    ensures r.Some? <==> rw.Rewritten? && rw.rootArg.PipelineNode?
    ensures r.Some? ==> r.value.stages == rw.rootArg.stages && r.value.tripleTimestamp == timestamp
    ensures r.Some? ==> r.value.distinct && r.value.sourceLevel == sourceLevel
    ensures r.Some? ==> (r.value.sourceTimestamp.Some? <==> rule in times && times[rule] > 0)
    ensures r.Some? && r.value.sourceTimestamp.Some? ==> r.value.sourceTimestamp.value == times[rule]
  {
    if rw.Rewritten? && rw.rootArg.PipelineNode? then
      var latest := if rule in times then times[rule] else 0;
      Some(Plan(rw.rootArg.stages, true, sourceLevel, if latest > 0 then Some(latest) else None, timestamp))
    else
      None
  }

  /** The watermark after a successful run at `timestamp`: the later of the two. */
  function Advanced(times: map<Rule, int>, rule: Rule, timestamp: int): (r: map<Rule, int>)
    ensures r.Keys == times.Keys + {rule}
    ensures r[rule] >= timestamp && (rule in times ==> r[rule] >= times[rule])
    ensures r[rule] == timestamp || (rule in times && r[rule] == times[rule])
    ensures forall k :: k in times ==> r[k] >= times[k]
    ensures forall k :: k in times && k != rule ==> r[k] == times[k]
  {
    times[rule := if rule in times && times[rule] > timestamp then times[rule] else timestamp]
  }

  /** `statementExists`: a failed query counts as "not present". */
  function StatementExists(answer: Option<seq<Triple>>): (r: bool)
    ensures r <==> answer.Some? && |answer.value| > 0
    ensures answer.None? ==> !r
  {
    match answer
    case None => false
    case Some(found) => found != []
  }

  predicate IsNew(env: Collaborators, d: Doc)
  {
    !StatementExists(env.query(env.deserialize(d)))
  }

  /** The streamed documents whose statement is not yet in the store, in stream order. */
  function NewDocs(env: Collaborators, docs: seq<Doc>): (r: seq<Doc>)
    ensures |r| <= |docs|
  {
    if docs == [] then []
    else NewDocs(env, docs[..|docs| - 1]) + (if IsNew(env, docs[|docs| - 1]) then [docs[|docs| - 1]] else [])
  }

  function Tagged(d: Doc, metadata: string): Doc
  {
    d.(metadata := metadata)
  }

  /** What the stream leaves in the writer's queue: new documents, tagged, whose queueing succeeded. */
  function Staged(env: Collaborators, docs: seq<Doc>, metadata: string): (r: seq<Doc>)
  {
    if docs == [] then []
    else
      var d := docs[|docs| - 1];
      Staged(env, docs[..|docs| - 1], metadata)
        + (if IsNew(env, d) && !env.queueFails(Tagged(d, metadata)) then [Tagged(d, metadata)] else [])
  }

  lemma {:induction false} NewDocsMember(env: Collaborators, docs: seq<Doc>, d: Doc)
    ensures d in NewDocs(env, docs) <==> d in docs && IsNew(env, d)
  {
    if docs != [] {
      NewDocsMember(env, docs[..|docs| - 1], d);
      assert docs == docs[..|docs| - 1] + [docs[|docs| - 1]];
    }
  }

  /** Every staged document is a new streamed document carrying the rule's metadata. */
  lemma {:induction false} StagedMember(env: Collaborators, docs: seq<Doc>, metadata: string, d: Doc)
    ensures d in Staged(env, docs, metadata) <==>
      !env.queueFails(d) && exists x :: x in NewDocs(env, docs) && d == Tagged(x, metadata)
  {
    if docs != [] {
      var init, last := docs[..|docs| - 1], docs[|docs| - 1];
      StagedMember(env, init, metadata, d);
      if d in Staged(env, docs, metadata) && d !in Staged(env, init, metadata) {
        assert last in NewDocs(env, docs);
      }
      if !env.queueFails(d) && d !in Staged(env, init, metadata) {
        if x :| x in NewDocs(env, docs) && d == Tagged(x, metadata) {
          if x in NewDocs(env, init) {
            assert false;
          }
        }
      }
    }
  }

  /**
   * The count includes every new document, including those whose queueing failed: the
   * queue receives at most the counted number, and exactly that many when queueing never fails.
   */
  lemma {:induction false} CountBoundsStaged(env: Collaborators, docs: seq<Doc>, metadata: string)
    ensures |Staged(env, docs, metadata)| <= |NewDocs(env, docs)|
    ensures (forall d :: d in docs ==> !env.queueFails(Tagged(d, metadata))) ==>
      |Staged(env, docs, metadata)| == |NewDocs(env, docs)|
  {
    if docs != [] {
      var init := docs[..|docs| - 1];
      CountBoundsStaged(env, init, metadata);
      assert forall d :: d in init ==> d in docs;
    }
  }

  /** The count is additive over consecutive parts of the stream. */
  lemma {:induction false} NewDocsSplit(env: Collaborators, a: seq<Doc>, b: seq<Doc>)
    ensures NewDocs(env, a + b) == NewDocs(env, a) + NewDocs(env, b)
    decreases |b|
  {
    if b == [] {
      assert a + b == a;
    } else {
      var init := b[..|b| - 1];
      NewDocsSplit(env, a, init);
      assert (a + b)[..|a + b| - 1] == a + init;
      assert (a + b)[|a + b| - 1] == b[|b| - 1];
    }
  }

  /**
   * The batch writer's staging queue and what it has written to the collection. Its own
   * batching and threading are not modelled; each call's failure is an input.
   */
  class BatchWriter {
    var queue: seq<Doc>
    var written: seq<Doc>
    var running: bool

    constructor ()
      ensures queue == [] && written == [] && running
    {
      queue, written, running := [], [], true;
    }

    method AddObjectToQueue(d: Doc, fails: bool) returns (ok: bool)
      modifies this
      ensures ok == !fails
      ensures queue == old(queue) + (if ok then [d] else [])
      ensures written == old(written) && running == old(running)
    {
      ok := !fails;
      if ok {
        queue := queue + [d];
      }
    }

    method Flush(fails: bool) returns (ok: bool)
      modifies this
      ensures ok == !fails
      ensures ok ==> written == old(written) + old(queue) && queue == []
      ensures !ok ==> written == old(written) && queue == old(queue)
      ensures running == old(running)
    {
      ok := !fails;
      if ok {
        written, queue := written + queue, [];
      }
    }

    method Shutdown(fails: bool) returns (ok: bool)
      modifies this
      ensures ok == !fails
      ensures ok ==> written == old(written) + old(queue) && queue == [] && !running
      ensures !ok ==> written == old(written) && queue == old(queue) && running == old(running)
    {
      ok := Flush(fails);
      if ok {
        running := false;
      }
    }
  }

  /** The strategy's mutable state; the DAO, the visitor, and the collection are collaborators. */
  class MongoPipelineStrategy {
    const requiredLevel: int
    const hasBackup: bool
    const writer: BatchWriter
    var usedBackup: bool
    var executionTimes: map<Rule, int>
    var backupShutDown: bool

    constructor (requiredLevel: int, hasBackup: bool)
      ensures this.requiredLevel == requiredLevel && this.hasBackup == hasBackup
      ensures !usedBackup && executionTimes == map[] && !backupShutDown
      ensures fresh(writer) && writer.queue == [] && writer.written == [] && writer.running
    {
      this.requiredLevel := requiredLevel;
      this.hasBackup := hasBackup;
      writer := new BatchWriter();
      usedBackup := false;
      executionTimes := map[];
      backupShutDown := false;
    }

    /** `toPipeline`: configures the pipeline node step by step, or yields none. */
    method ToPipeline(env: Collaborators, rule: Rule, sourceLevel: int, timestamp: int) returns (r: Option<Plan>)
      ensures r == PipelineFor(env.transform(rule), rule, sourceLevel, timestamp, executionTimes)
    {
      var rw := env.transform(rule);
      if rw.VisitorThrew? || !rw.rootArg.PipelineNode? {
        return None;
      }
      var node := Plan(rw.rootArg.stages, false, 0, None, 0);
      node := node.(distinct := true);
      node := node.(sourceLevel := sourceLevel);
      var latest := if rule in executionTimes then executionTimes[rule] else 0;
      if latest > 0 {
        node := node.(sourceTimestamp := Some(latest));
      }
      r := Some(node.(tripleTimestamp := timestamp));
    }

    /** The `forEach` over the streamed documents: count the new ones and stage them. */
    method Drain(env: Collaborators, docs: seq<Doc>, metadata: string) returns (count: nat)
      modifies writer
      ensures count == |NewDocs(env, docs)|
      ensures writer.queue == old(writer.queue) + Staged(env, docs, metadata)
      ensures writer.written == old(writer.written) && writer.running == old(writer.running)
    {
      count := 0;
      var i := 0;
      while i < |docs|
        invariant 0 <= i <= |docs|
        invariant count == |NewDocs(env, docs[..i])|
        invariant writer.queue == old(writer.queue) + Staged(env, docs[..i], metadata)
        invariant writer.written == old(writer.written) && writer.running == old(writer.running)
      {
        var d := docs[i];
        assert docs[..i + 1][..i] == docs[..i];
        if !StatementExists(env.query(env.deserialize(d))) {
          count := count + 1;
          var tagged := Tagged(d, metadata);
          var _ := writer.AddObjectToQueue(tagged, env.queueFails(tagged));
        }
        i := i + 1;
      }
      assert docs[..i] == docs;
    }

    /**
     * `executeConstructRule` at time `timestamp`: returns the number of new statements,
     * the backup's own result, or the error that escapes.
     */
    method ExecuteConstructRule(env: Collaborators, rule: Rule, metadata: string, timestamp: int)
      returns (r: Result<nat, ChainError>)
      modifies this, writer
      ensures old(usedBackup) ==> usedBackup
      ensures var plan := PipelineFor(env.transform(rule), rule, if old(usedBackup) then 0 else requiredLevel,
                                      timestamp, old(executionTimes));
        && (plan.None? && !hasBackup ==>
              r == Fail(Unsupported) && usedBackup == old(usedBackup)
              && executionTimes == old(executionTimes) && unchanged(writer))
        && (plan.None? && hasBackup ==>
              r == env.backup(rule, metadata) && usedBackup
              && executionTimes == old(executionTimes) && unchanged(writer))
        && (plan.Some? ==> usedBackup == old(usedBackup) && writer.running == old(writer.running))
        && (plan.Some? && env.aggregate(plan.value).Broken? ==>
              var prefix := env.aggregate(plan.value).prefix;
              r == Fail(StreamFailure) && executionTimes == old(executionTimes)
              && writer.queue == old(writer.queue) + Staged(env, prefix, metadata)
              && writer.written == old(writer.written))
        && (plan.Some? && env.aggregate(plan.value).Complete? && env.flushFails ==>
              var docs := env.aggregate(plan.value).docs;
              r == Fail(WriterFailure) && executionTimes == old(executionTimes)
              && writer.queue == old(writer.queue) + Staged(env, docs, metadata)
              && writer.written == old(writer.written))
        && (plan.Some? && env.aggregate(plan.value).Complete? && !env.flushFails ==>
              var docs := env.aggregate(plan.value).docs;
              r == Ok(|NewDocs(env, docs)|)
              && executionTimes == Advanced(old(executionTimes), rule, timestamp)
              && writer.written == old(writer.written) + old(writer.queue) + Staged(env, docs, metadata)
              && writer.queue == [])
      ensures backupShutDown == old(backupShutDown)
    {
      var level := 0;
      if !usedBackup {
        level := requiredLevel;
      }
      var pipeline := ToPipeline(env, rule, level, timestamp);
      if pipeline.None? {
        if !hasBackup {
          return Fail(Unsupported);
        }
        usedBackup := true;
        return env.backup(rule, metadata);
      }
      var stream := env.aggregate(pipeline.value);
      if stream.Broken? {
        var _ := Drain(env, stream.prefix, metadata);
        return Fail(StreamFailure);
      }
      var count := Drain(env, stream.docs, metadata);
      var flushed := writer.Flush(env.flushFails);
      if !flushed {
        return Fail(WriterFailure);
      }
      executionTimes := Advanced(executionTimes, rule, timestamp);
      r := Ok(count);
    }

    /**
     * `shutDown`: the backup strategy first, then the batch writer; the first error escapes.
     * `backupOutcome` is the error the backup's own shutdown throws, if any.
     */
    method ShutDown(backupOutcome: Option<ChainError>, writerFails: bool) returns (r: Option<ChainError>)
      modifies this, writer
      ensures usedBackup == old(usedBackup) && executionTimes == old(executionTimes)
      ensures !hasBackup ==> r == Some(NullBackup) && backupShutDown == old(backupShutDown) && unchanged(writer)
      ensures hasBackup && backupOutcome.Some? ==>
        r == backupOutcome && backupShutDown == old(backupShutDown) && unchanged(writer)
      ensures hasBackup && backupOutcome.None? ==> backupShutDown
      ensures hasBackup && backupOutcome.None? && writerFails ==>
        r == Some(WriterFailure) && writer.queue == old(writer.queue) && writer.written == old(writer.written)
      ensures hasBackup && backupOutcome.None? && !writerFails ==>
        r.None? && !writer.running && writer.queue == [] && writer.written == old(writer.written) + old(writer.queue)
    {
      if !hasBackup {
        return Some(NullBackup);
      }
      if backupOutcome.Some? {
        return backupOutcome;
      }
      backupShutDown := true;
      var ok := writer.Shutdown(writerFails);
      if !ok {
        return Some(WriterFailure);
      }
      r := None;
    }
  }
}
