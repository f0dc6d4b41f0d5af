# Rya query evaluation, forward chaining and temporal queries in Dafny

This project models three parts of Apache Rya, an RDF triple store built on
Accumulo and MongoDB:

- **Statement-pattern and join evaluation** (`ParallelEvaluationStrategyImpl`).
  - A statement pattern is evaluated against a batch of incoming binding sets, in
    one of three branches:
    - a fixed pattern is filtered in memory against its own statement list;
    - a transitive pattern with a constant endpoint is crossed with the closure the
      inference engine computes;
    - any other pattern becomes one store lookup per usable binding, sent in one batch.
  - Each matched (statement, binding) pair is converted back into a binding set. The
    conversion binds only non-constant, not-yet-bound variables, and binds the context
    only when the statement has one.
  - Around this sit the constructor's settings, the sanitiser that drops null bindings,
    `Slice` as offset then limit, and the join dispatcher that picks a batched or a
    generic join from the right operand's shape.
  - Files: `pattern_eval.dfy` (module `PatternEvaluation`) and `algebra.dfy` (module
    `Algebra`). Shared values are in `rdf.dfy` (RDF terms, statements, variables, binding
    sets as `map<string, Value>`) and `wrappers.dfy` (`Option`, `Result`, and `Then`,
    which keeps the first failure of two results).
- **Forward-chaining rule execution** (`MongoPipelineStrategy`), `forward_chain.dfy`.
  - A class with the one-way `usedBackup` flag and the per-rule execution-time
    watermark map.
  - A rule is compiled to an aggregation pipeline. If it cannot be compiled, it is
    handed to the backup strategy.
  - The streamed documents whose statement is not yet stored are counted and staged
    into a batch writer, which is then flushed.
- **Temporal query construction** (`MongoTemporalIndexer`), `temporal.dfy`.
  - Each temporal relation between a query instant or interval and the stored
    documents is a conjunction of comparisons over the instant, interval-start and
    interval-end fields.
  - Each builder is proved to match exactly the documents its relation describes.

Collaborators whose code is not part of this model are parameters of the operations.
Each is a function value, and its failure is an outcome the model handles. They are:

- the store's batched lookup and the inference engine's transitive closure
  (`PatternEvaluation.Backend`);
- filter conditions and external batching operators (`Algebra.Env`);
- the pipeline visitor, the aggregation stream, document deserialisation, the existence
  query, the backup strategy and the batch writer's failures
  (`ForwardChain.Collaborators`, and the `fails` arguments of `ForwardChain.BatchWriter`).

The clock read by `executeConstructRule` is its `timestamp` parameter.

The imperative parts of the source are methods with loops, proved equal to the
specification functions:

- the nested loops that fill the fixed and transitive entry lists and the lookup batch
  (`CollectFixed`, `CollectTransitive`, `CollectLookups`);
- `convert`'s successive `addBinding` calls (`Convert`);
- the conversion of every match (`EvaluatePattern`);
- the document loop of `executeConstructRule` (`Drain`).

Properties relating several operations are lemmas. The main ones:

- batching is transparent (`BatchedEqualsPerBinding`, `BatchedJoinAgrees`,
  `FilteredBatchedJoinAgrees`, `ReorderedJoinAgrees`);
- outputs only extend their inputs (`ResultsExtendInputs`);
- the temporal relations partition as intended (`InstantRelationsPartition`,
  `InstantIntervalRelations`, `IntervalBeforeAfterDisjoint`).

The batching lemmas assume a store that answers a batch exactly as it would answer
each lookup alone (`AnswersPerLookup`). For a batch that may be empty, they also assume
that an empty batch yields no rows; `EmptyBatch` states when that holds.

The source's `backup == null` branch in `executeConstructRule` cannot be reached through
the source's own constructor, which always creates a backup strategy. The model keeps it
anyway, as `hasBackup`, because the method tests for it.

## Model

| member | source | states |
|---|---|---|
| PatternEvaluation.ValueOverridesBinding | sail/src/main/java/org/apache/rya/rdftriplestore/evaluation/ParallelEvaluationStrategyImpl.java:291-296 | `VarValue` (`getVarValue(var, binding)`) of a variable that carries its own value is that value whatever the binding set says, and it is what the one-argument `getVarValue` (`ConstValue`) returns |
| PatternEvaluation.FixedForMember | sail/src/main/java/org/apache/rya/rdftriplestore/evaluation/ParallelEvaluationStrategyImpl.java:163-169 | for one binding, an entry is emitted exactly for the listed statements whose subject, predicate and object are each unbound or equal; the context is not compared |
| PatternEvaluation.FixedMember | sail/src/main/java/org/apache/rya/rdftriplestore/evaluation/ParallelEvaluationStrategyImpl.java:156-171 | the fixed branch emits `(st, b)` if and only if `b` is an incoming binding, `st` is in the pattern's list, and the pattern admits `st` under `b` |
| PatternEvaluation.FixedFailure | sail/src/main/java/org/apache/rya/rdftriplestore/evaluation/ParallelEvaluationStrategyImpl.java:158-162 | the fixed branch throws if and only if some binding gives the context a value that is not a Resource, and then the error is a class-cast failure |
| PatternEvaluation.FixedSplit | sail/src/main/java/org/apache/rya/rdftriplestore/evaluation/ParallelEvaluationStrategyImpl.java:158-170 | bindings are the outer loop: the entries for `bs1 + bs2` are those for `bs1` followed by those for `bs2`, or the first failure |
| PatternEvaluation.CollectFixed | sail/src/main/java/org/apache/rya/rdftriplestore/evaluation/ParallelEvaluationStrategyImpl.java:156-171 | the nested loops compute exactly the fixed-branch entries, in binding-then-statement order |
| PatternEvaluation.PairsCount | sail/src/main/java/org/apache/rya/rdftriplestore/evaluation/ParallelEvaluationStrategyImpl.java:187-192 | the closure crossed with the bindings has `|bindings| * |closure|` entries |
| PatternEvaluation.PairsMember | sail/src/main/java/org/apache/rya/rdftriplestore/evaluation/ParallelEvaluationStrategyImpl.java:187-192 | `(st, b)` is in the cross product if and only if `st` is in the closure and `b` is an incoming binding |
| PatternEvaluation.PairsFromBindings | sail/src/main/java/org/apache/rya/rdftriplestore/evaluation/ParallelEvaluationStrategyImpl.java:188-191 | every entry of the cross product carries an incoming binding |
| PatternEvaluation.PairsSplit | sail/src/main/java/org/apache/rya/rdftriplestore/evaluation/ParallelEvaluationStrategyImpl.java:188-192 | the cross product for `bs1 + bs2` is that for `bs1` followed by that for `bs2` |
| PatternEvaluation.CollectTransitive | sail/src/main/java/org/apache/rya/rdftriplestore/evaluation/ParallelEvaluationStrategyImpl.java:187-193 | the nested loops compute exactly the cross product, bindings outer and closure statements inner |
| PatternEvaluation.LookupMember | sail/src/main/java/org/apache/rya/rdftriplestore/evaluation/ParallelEvaluationStrategyImpl.java:195-206 | the batch holds `(q, b)` if and only if `b` is an incoming binding that is not skipped and `q` is built from its subject, predicate, object and context values |
| PatternEvaluation.LookupFailure | sail/src/main/java/org/apache/rya/rdftriplestore/evaluation/ParallelEvaluationStrategyImpl.java:195-203 | building the batch throws if and only if some binding gives the context a non-Resource value, even a binding that would be skipped, and the error is a class-cast failure |
| PatternEvaluation.LookupSplit | sail/src/main/java/org/apache/rya/rdftriplestore/evaluation/ParallelEvaluationStrategyImpl.java:195-206 | the batch for `bs1 + bs2` is the batch for `bs1` followed by that for `bs2`, or the first failure |
| PatternEvaluation.AllSkippedIsEmpty | sail/src/main/java/org/apache/rya/rdftriplestore/evaluation/ParallelEvaluationStrategyImpl.java:200-209 | when every binding is skipped (and no context cast fails), the result is empty whatever the store would answer: no lookup is made |
| PatternEvaluation.CollectLookups | sail/src/main/java/org/apache/rya/rdftriplestore/evaluation/ParallelEvaluationStrategyImpl.java:195-206 | the loop with its `continue` builds exactly the lookup batch, or fails as the casts do |
| PatternEvaluation.TransitiveFallsThrough | sail/src/main/java/org/apache/rya/rdftriplestore/evaluation/ParallelEvaluationStrategyImpl.java:172-211 | a transitive pattern without a predicate variable or a constant subject or object is evaluated exactly as an ordinary pattern; no error is raised |
| PatternEvaluation.TransitiveCount | sail/src/main/java/org/apache/rya/rdftriplestore/evaluation/ParallelEvaluationStrategyImpl.java:172-193 | with closure `sts`, the transitive branch succeeds with `|bs| * |sts|` pairs, containing `(st, b)` exactly when `st` is in `sts` and `b` in `bs`; the closure does not depend on the bindings |
| PatternEvaluation.Converted | sail/src/main/java/org/apache/rya/rdftriplestore/evaluation/ParallelEvaluationStrategyImpl.java:216-235 | conversion keeps every incoming binding unchanged; each added name belongs to a non-constant slot variable (the context only when the statement has a context); an unbound subject variable gets the subject, an unbound predicate variable the predicate and an unbound object variable the object (each unless an earlier slot shares its name); an unbound context variable is bound exactly when the statement has a context, to that context |
| PatternEvaluation.RepeatedVariableTakesSubject | sail/src/main/java/org/apache/rya/rdftriplestore/evaluation/ParallelEvaluationStrategyImpl.java:222-230 | a variable repeated in subject and object slots is bound to the subject, and the object is never compared with it |
| PatternEvaluation.Convert | sail/src/main/java/org/apache/rya/rdftriplestore/evaluation/ParallelEvaluationStrategyImpl.java:216-235 | the successive `addBinding` steps compute exactly `Converted` |
| PatternEvaluation.EvaluatePattern | sail/src/main/java/org/apache/rya/rdftriplestore/evaluation/ParallelEvaluationStrategyImpl.java:145-237 | the three branches and the conversion of every match compute exactly `Results`, including each error path |
| PatternEvaluation.EntriesFromInputs | sail/src/main/java/org/apache/rya/rdftriplestore/evaluation/ParallelEvaluationStrategyImpl.java:156-212 | over a store that answers each lookup with the binding it was sent with, every matched pair carries an incoming binding set |
| PatternEvaluation.ResultsExtendInputs | sail/src/main/java/org/apache/rya/rdftriplestore/evaluation/ParallelEvaluationStrategyImpl.java:213-235 | every produced binding set extends one of the incoming binding sets |
| PatternEvaluation.EntriesSplit | sail/src/main/java/org/apache/rya/rdftriplestore/evaluation/ParallelEvaluationStrategyImpl.java:156-212 | over a store that answers per lookup, the matches for `bs1 + bs2` are those for `bs1` followed by those for `bs2`, or the first failure |
| PatternEvaluation.ResultsSplit | sail/src/main/java/org/apache/rya/rdftriplestore/evaluation/ParallelEvaluationStrategyImpl.java:145-237 | likewise for the converted results |
| PatternEvaluation.EmptyBatch | sail/src/main/java/org/apache/rya/rdftriplestore/evaluation/ParallelEvaluationStrategyImpl.java:172-209 | an empty batch yields no rows, and fails if and only if the pattern takes the transitive branch and its closure request throws |
| PatternEvaluation.BatchedEqualsPerBinding | sail/src/main/java/org/apache/rya/rdftriplestore/evaluation/ParallelEvaluationStrategyImpl.java:139-145 | for a non-empty batch (or an empty one that yields no rows), evaluating over the whole batch gives the same rows, in the same order, as evaluating the single-binding overload once per binding |
| Algebra.NewStrategy | sail/src/main/java/org/apache/rya/rdftriplestore/evaluation/ParallelEvaluationStrategyImpl.java:82-93 | one thread whatever the configuration says; `performant` and `displayQueryPlan` as configured when set, else true and false |
| Algebra.ChooseJoin | sail/src/main/java/org/apache/rya/rdftriplestore/evaluation/ParallelEvaluationStrategyImpl.java:96-136 | the dispatch table: batched join for a pattern or external batching operator; filter over a batched join for a filter over a pattern; for a filter over a join of two patterns, the first folded into the left side; a generic join exactly otherwise; the superclass join without `performant` |
| Algebra.SliceRows | sail/src/main/java/org/apache/rya/rdftriplestore/evaluation/ParallelEvaluationStrategyImpl.java:279-289 | the result is the child's rows from `o`, `min(l, max(0, N - o))` of them, each optional, offset before limit |
| Algebra.Sanitize | sail/src/main/java/org/apache/rya/rdftriplestore/evaluation/ParallelEvaluationStrategyImpl.java:239-257 | keeps exactly the names with a non-null binding, with their values; with no null binding the binding set is returned as it is |
| Algebra.SanitizeIdempotent | sail/src/main/java/org/apache/rya/rdftriplestore/evaluation/ParallelEvaluationStrategyImpl.java:239-257 | sanitising twice is sanitising once |
| Algebra.EvaluateSeesNonNullBindings | sail/src/main/java/org/apache/rya/rdftriplestore/evaluation/ParallelEvaluationStrategyImpl.java:259-277 | `Evaluate` (the override of `evaluate(TupleExpr)`) is `Eval` of the tree under a binding set holding exactly the caller's non-null bindings, with their values |
| Algebra.EachPatternIsPerBinding | sail/src/main/java/org/apache/rya/rdftriplestore/evaluation/ParallelEvaluationStrategyImpl.java:139-143 | the generic join's per-row evaluation of a pattern is the single-binding overload applied to each row |
| Algebra.KeepMember | sail/src/main/java/org/apache/rya/rdftriplestore/evaluation/ParallelEvaluationStrategyImpl.java:116 | the FilterIterator's meaning: a row is kept if and only if it is a child row its condition holds for |
| Algebra.KeepPerBinding | sail/src/main/java/org/apache/rya/rdftriplestore/evaluation/ParallelEvaluationStrategyImpl.java:111-116 | evaluating a filtered pattern row by row is filtering the row-by-row results |
| Algebra.BatchedJoinAgrees | sail/src/main/java/org/apache/rya/rdftriplestore/evaluation/ParallelEvaluationStrategyImpl.java:97-106 | over a store that answers per lookup, `Eval` of the batched join with a pattern (MultipleBindingSetsIterator) gives exactly the generic join's result (JoinIterator, `PairwiseJoin`) |
| Algebra.FilteredBatchedJoinAgrees | sail/src/main/java/org/apache/rya/rdftriplestore/evaluation/ParallelEvaluationStrategyImpl.java:111-116 | the filter over a batched join gives exactly the generic join with the filtered pattern |
| Algebra.ChainedPerRow | sail/src/main/java/org/apache/rya/rdftriplestore/evaluation/ParallelEvaluationStrategyImpl.java:117-124 | one pattern batched over the rows the other produces in batch gives the per-row join of the two patterns' rows, or both fail |
| Algebra.ReorderedJoinAgrees | sail/src/main/java/org/apache/rya/rdftriplestore/evaluation/ParallelEvaluationStrategyImpl.java:117-125 | the reordered evaluation of a filter over a join of two patterns gives the generic join's rows, in order, and fails exactly when the generic join fails |
| ForwardChain.PipelineFor | extras/rya.forwardchain/src/main/java/org/apache/rya/forwardchain/strategy/MongoPipelineStrategy.java:250-275 | a pipeline exists if and only if the visitor succeeded and left a pipeline node directly under the root; it is always distinct, always has the given source level, and has a source-timestamp requirement exactly when the rule's recorded time is above 0, with that time |
| ForwardChain.MongoPipelineStrategy.ToPipeline | extras/rya.forwardchain/src/main/java/org/apache/rya/forwardchain/strategy/MongoPipelineStrategy.java:250-275 | configuring the node step by step, reading the current watermark map, yields exactly `PipelineFor` |
| ForwardChain.Advanced | extras/rya.forwardchain/src/main/java/org/apache/rya/forwardchain/strategy/MongoPipelineStrategy.java:203-210 | the rule's entry becomes the later of its previous time and the timestamp; no entry decreases; other rules' entries are unchanged |
| ForwardChain.StatementExists | extras/rya.forwardchain/src/main/java/org/apache/rya/forwardchain/strategy/MongoPipelineStrategy.java:214-221 | a statement exists exactly when the query succeeds with at least one answer; a failed query counts as not present |
| ForwardChain.NewDocsMember | extras/rya.forwardchain/src/main/java/org/apache/rya/forwardchain/strategy/MongoPipelineStrategy.java:181-187 | a document is counted if and only if it was streamed and its statement is not present |
| ForwardChain.StagedMember | extras/rya.forwardchain/src/main/java/org/apache/rya/forwardchain/strategy/MongoPipelineStrategy.java:184-194 | a document is staged if and only if it is a counted document with the rule's metadata and its queueing did not fail |
| ForwardChain.CountBoundsStaged | extras/rya.forwardchain/src/main/java/org/apache/rya/forwardchain/strategy/MongoPipelineStrategy.java:186-193 | documents whose queueing failed are still counted: the queue receives at most the counted number, and exactly that many when no queueing fails |
| ForwardChain.NewDocsSplit | extras/rya.forwardchain/src/main/java/org/apache/rya/forwardchain/strategy/MongoPipelineStrategy.java:177-196 | the count over consecutive parts of the stream is the sum of the parts' counts |
| ForwardChain.BatchWriter.AddObjectToQueue | extras/rya.forwardchain/src/main/java/org/apache/rya/forwardchain/strategy/MongoPipelineStrategy.java:189-193 | queueing appends the document unless it fails; nothing is written |
| ForwardChain.BatchWriter.Flush | extras/rya.forwardchain/src/main/java/org/apache/rya/forwardchain/strategy/MongoPipelineStrategy.java:197-201 | a successful flush writes the whole queue, in order, and empties it; a failed one changes nothing |
| ForwardChain.BatchWriter.Shutdown | extras/rya.forwardchain/src/main/java/org/apache/rya/forwardchain/strategy/MongoPipelineStrategy.java:232-236 | a successful shutdown flushes and stops the writer; a failed one changes nothing |
| ForwardChain.MongoPipelineStrategy.constructor | extras/rya.forwardchain/src/main/java/org/apache/rya/forwardchain/strategy/MongoPipelineStrategy.java:75-78 | the fallback flag starts false and the watermark map empty; the writer starts running and empty |
| ForwardChain.MongoPipelineStrategy.Drain | extras/rya.forwardchain/src/main/java/org/apache/rya/forwardchain/strategy/MongoPipelineStrategy.java:177-196 | the loop over the streamed documents counts exactly the new ones and appends exactly the staged ones to the writer's queue |
| ForwardChain.MongoPipelineStrategy.ExecuteConstructRule | extras/rya.forwardchain/src/main/java/org/apache/rya/forwardchain/strategy/MongoPipelineStrategy.java:133-212 | the fallback flag only turns on, and does so exactly on the fallback path; the level is `requiredLevel` until a fallback, 0 after; with no pipeline the result is the backup's, or Unsupported without a backup; a broken stream or a failed flush escapes and leaves the watermarks unchanged; otherwise the new-document count is returned, the queue flushed and the rule's watermark advanced |
| ForwardChain.MongoPipelineStrategy.ShutDown | extras/rya.forwardchain/src/main/java/org/apache/rya/forwardchain/strategy/MongoPipelineStrategy.java:230-237 | shuts the backup down first and then the writer; a backup error escapes before the writer is touched; a writer error is returned wrapped; a missing backup is a null-reference failure |
| TemporalQueries.InstantEqualsInstant | extras/indexing/src/main/java/org/apache/rya/indexing/mongodb/temporal/MongoTemporalIndexer.java:58-64 | matches exactly the documents whose instant equals the query instant |
| TemporalQueries.InstantBeforeInstant | extras/indexing/src/main/java/org/apache/rya/indexing/mongodb/temporal/MongoTemporalIndexer.java:66-72 | matches exactly the documents whose instant is strictly earlier |
| TemporalQueries.InstantAfterInstant | extras/indexing/src/main/java/org/apache/rya/indexing/mongodb/temporal/MongoTemporalIndexer.java:74-80 | matches exactly the documents whose instant is strictly later |
| TemporalQueries.InstantBeforeInterval | extras/indexing/src/main/java/org/apache/rya/indexing/mongodb/temporal/MongoTemporalIndexer.java:82-88 | matches exactly the instants strictly before the interval's beginning |
| TemporalQueries.InstantAfterInterval | extras/indexing/src/main/java/org/apache/rya/indexing/mongodb/temporal/MongoTemporalIndexer.java:90-94 | is the instant-after query at the interval's end, so matches the instants strictly after the end |
| TemporalQueries.InstantInsideInterval | extras/indexing/src/main/java/org/apache/rya/indexing/mongodb/temporal/MongoTemporalIndexer.java:96-103 | matches exactly the instants strictly between beginning and end |
| TemporalQueries.InstantHasBeginningInterval | extras/indexing/src/main/java/org/apache/rya/indexing/mongodb/temporal/MongoTemporalIndexer.java:105-109 | is the instant-equals query at the interval's beginning |
| TemporalQueries.InstantHasEndInterval | extras/indexing/src/main/java/org/apache/rya/indexing/mongodb/temporal/MongoTemporalIndexer.java:111-115 | is the instant-equals query at the interval's end |
| TemporalQueries.IntervalEquals | extras/indexing/src/main/java/org/apache/rya/indexing/mongodb/temporal/MongoTemporalIndexer.java:117-125 | matches exactly the stored intervals with the same start and the same end |
| TemporalQueries.IntervalBefore | extras/indexing/src/main/java/org/apache/rya/indexing/mongodb/temporal/MongoTemporalIndexer.java:127-133 | matches exactly the stored intervals that end strictly before the query's beginning |
| TemporalQueries.IntervalAfter | extras/indexing/src/main/java/org/apache/rya/indexing/mongodb/temporal/MongoTemporalIndexer.java:135-141 | matches exactly the stored intervals that start strictly after the query's end |
| TemporalQueries.CollectionName | extras/indexing/src/main/java/org/apache/rya/indexing/mongodb/temporal/MongoTemporalIndexer.java:143-146 | the table prefix followed by `temporal` |
| TemporalQueries.CollectionNameInjective | extras/indexing/src/main/java/org/apache/rya/indexing/mongodb/temporal/MongoTemporalIndexer.java:143-146 | distinct table prefixes give distinct collection names |
| TemporalQueries.InstantRelationsPartition | extras/indexing/src/main/java/org/apache/rya/indexing/mongodb/temporal/MongoTemporalIndexer.java:58-80 | a stored instant matches exactly one of the equals, before and after queries |
| TemporalQueries.InstantIntervalRelations | extras/indexing/src/main/java/org/apache/rya/indexing/mongodb/temporal/MongoTemporalIndexer.java:82-115 | against a well-formed interval a stored instant is before, inside, after, or at an end, and is never in two of before, inside and after, nor inside and at an end |
| TemporalQueries.IntervalBeforeAfterDisjoint | extras/indexing/src/main/java/org/apache/rya/indexing/mongodb/temporal/MongoTemporalIndexer.java:117-141 | a well-formed stored interval is never both before and after a well-formed query interval, and an equal interval is neither |

## Left out

- The thread pool and `shutdown()` of the evaluation strategy are concurrency plumbing. The thread count is forced to 1 in any case, as `NewStrategy` states.
- Laziness of the iterations is not modelled. A result is the whole sequence of rows or the first error. An error the store would raise only for rows beyond a slice's limit is therefore reported here.
- The internals of `MultipleBindingSetsIterator` and `ExternalMultipleBindingSetsIterator` are not part of this model. A batched join evaluates its left side fully and passes all of its rows as one batch. Any chunking into smaller batches is not captured.
- The superclass's join (`StrictEvaluationStrategy`), `JoinIterator` and `FilterIterator` are foreign code. They are given only the per-row join and keep-if-true meaning. Filter conditions and external batching operators are uninterpreted (`Algebra.Env`).
- The store's batched lookup and `InferenceEngine.findTransitiveProperty` are uninterpreted functions with a failure outcome. The batching lemmas assume a store that answers per lookup.
- The `displayQueryPlan` logging branch and the commented-out operand swap are not modelled.
- Algebra.Sanitize: "returned as it is" is value equality. Java object identity has no counterpart here.
- Binding-set maps model `QueryBindingSet` and `MapBindingSet`. A `BindingSet` that lists a name with a null binding is modelled by `RawBindingSet` (a name mapped to `None`).
- `MongoPipelineStrategy`'s constructor (DAO, client and writer bootstrapping) is not modelled. The model's constructor only sets the initial state.
- `requiredLevel` is a constant of the strategy. Its superclass `AbstractRuleExecutionStrategy` is not part of this model.
- `SparqlToPipelineTransformVisitor`, `AggregationPipelineQueryNode`, the MongoDB aggregation, BSON/JSON deserialisation and `MongoDbBatchWriter` are collaborators. None of their code is modelled. The batch writer is only a queue, a written log and a running flag.
- ForwardChain.MongoPipelineStrategy.ExecuteConstructRule: the existence query is a fixed function during one call. Documents the writer flushes on its own during the stream are not seen by later existence checks.
- ForwardChain.MongoPipelineStrategy.ExecuteConstructRule: the `long` counter and timestamps are unbounded integers, so 64-bit overflow is not modelled.
- ForwardChain.MongoPipelineStrategy.ExecuteConstructRule: the backup strategy's own effects on the store are not modelled; only its returned result is.
- PatternEvaluation.BatchedEqualsPerBinding: the store it assumes (`AnswersPerLookup`) never fails, so this lemma and the Algebra batching lemmas built on it say nothing about a store failure inside a batch.
- ForwardChain.Tagged: every streamed document is assumed to carry the statement-metadata field already. The source's `replace` writes the field only when it is present.
- ForwardChain.Collaborators: `transform` is a pure function of the rule. The source's visitor rewrites the rule's own query tree in place, so a partial rewrite stays in the rule and is seen by the backup call and by later executions. That aliasing is not captured.
- Logging and `System.currentTimeMillis()` are left out. The timestamp is a parameter.
- The `MongoTemporalIndexer` I/O is left out: `init`, `createIndices`, `getCollection`, and `withConstraints` (whose code is not part of this model). The QueryBuilder's object is modelled as a list of conditions that must all hold.
- The Joda/`Date` conversion is left out. Times are integers, compared as MongoDB compares dates.
