/**
 * The temporal index's query builders: each temporal relation between a query instant or
 * interval and the stored statements becomes a conjunction of comparisons over the stored
 * document's instant, interval-start and interval-end fields. Times are plain integers.
 */
module TemporalQueries {
  import opened Wrappers

  const CollectionSuffix: string := "temporal"

  datatype Field = Instant | IntervalStart | IntervalEnd

  /** The query-builder operators used: equality and the two strict comparisons. */
  datatype Op = Is | LessThan | GreaterThan

  datatype Condition = Condition(field: Field, op: Op, bound: int)

  /** A query document: all of its conditions must hold. */
  datatype Query = Query(conditions: seq<Condition>)

  /** A stored temporal document; a field it does not carry is None. */
  datatype TemporalDoc = TemporalDoc(instant: Option<int>, start: Option<int>, end: Option<int>)

  datatype Interval = Interval(beginning: int, end: int)

  function FieldOf(d: TemporalDoc, f: Field): Option<int>
  {
    match f
    case Instant => d.instant
    case IntervalStart => d.start
    case IntervalEnd => d.end
  }

  /** A comparison on a field the document does not carry never holds. */
  predicate Holds(c: Condition, d: TemporalDoc)
  {
    match FieldOf(d, c.field)
    case None => false
    case Some(t) =>
      match c.op
      case Is => t == c.bound
      case LessThan => t < c.bound
      case GreaterThan => t > c.bound
  }

  predicate Matches(q: Query, d: TemporalDoc)
  {
    forall i :: 0 <= i < |q.conditions| ==> Holds(q.conditions[i], d)
  }

  lemma MatchesSingle(c: Condition)
    ensures forall d :: Matches(Query([c]), d) <==> Holds(c, d)
  {
    forall d ensures Matches(Query([c]), d) <==> Holds(c, d) {
      assert Query([c]).conditions[0] == c;
    }
  }

  lemma MatchesBoth(c1: Condition, c2: Condition)
    ensures forall d :: Matches(Query([c1, c2]), d) <==> Holds(c1, d) && Holds(c2, d)
  {
    forall d ensures Matches(Query([c1, c2]), d) <==> Holds(c1, d) && Holds(c2, d) {
      assert Query([c1, c2]).conditions[0] == c1 && Query([c1, c2]).conditions[1] == c2;
    }
  }

  function InstantEqualsInstant(q: int): (r: Query)
    ensures forall d :: Matches(r, d) <==> d.instant == Some(q)
  {
    MatchesSingle(Condition(Instant, Is, q));
    Query([Condition(Instant, Is, q)])
  }

  function InstantBeforeInstant(q: int): (r: Query)
    ensures forall d :: Matches(r, d) <==> d.instant.Some? && d.instant.value < q
  {
    MatchesSingle(Condition(Instant, LessThan, q));
    Query([Condition(Instant, LessThan, q)])
  }

  function InstantAfterInstant(q: int): (r: Query)
    ensures forall d :: Matches(r, d) <==> d.instant.Some? && d.instant.value > q
  {
    MatchesSingle(Condition(Instant, GreaterThan, q));
    Query([Condition(Instant, GreaterThan, q)])
  }

  function InstantBeforeInterval(i: Interval): (r: Query)
    ensures forall d :: Matches(r, d) <==> d.instant.Some? && d.instant.value < i.beginning
  {
    MatchesSingle(Condition(Instant, LessThan, i.beginning));
    Query([Condition(Instant, LessThan, i.beginning)])
  }

  function InstantAfterInterval(i: Interval): (r: Query)
    ensures r == InstantAfterInstant(i.end)
    ensures forall d :: Matches(r, d) <==> d.instant.Some? && d.instant.value > i.end
  {
    InstantAfterInstant(i.end)
  }

  function InstantInsideInterval(i: Interval): (r: Query)
    ensures forall d :: Matches(r, d) <==> d.instant.Some? && i.beginning < d.instant.value < i.end
  {
    MatchesBoth(Condition(Instant, GreaterThan, i.beginning), Condition(Instant, LessThan, i.end));
    Query([Condition(Instant, GreaterThan, i.beginning), Condition(Instant, LessThan, i.end)])
  }

  function InstantHasBeginningInterval(i: Interval): (r: Query)
    ensures r == InstantEqualsInstant(i.beginning)
    ensures forall d :: Matches(r, d) <==> d.instant == Some(i.beginning)
  {
    InstantEqualsInstant(i.beginning)
  }

  function InstantHasEndInterval(i: Interval): (r: Query)
    ensures r == InstantEqualsInstant(i.end)
    ensures forall d :: Matches(r, d) <==> d.instant == Some(i.end)
  {
    InstantEqualsInstant(i.end)
  }

  function IntervalEquals(i: Interval): (r: Query)
    ensures forall d :: Matches(r, d) <==> d.start == Some(i.beginning) && d.end == Some(i.end)
  {
    MatchesBoth(Condition(IntervalStart, Is, i.beginning), Condition(IntervalEnd, Is, i.end));
    Query([Condition(IntervalStart, Is, i.beginning), Condition(IntervalEnd, Is, i.end)])
  }

  function IntervalBefore(i: Interval): (r: Query)
    ensures forall d :: Matches(r, d) <==> d.end.Some? && d.end.value < i.beginning
  {
    MatchesSingle(Condition(IntervalEnd, LessThan, i.beginning));
    Query([Condition(IntervalEnd, LessThan, i.beginning)])
  }

  function IntervalAfter(i: Interval): (r: Query)
    ensures forall d :: Matches(r, d) <==> d.start.Some? && d.start.value > i.end
  {
    MatchesSingle(Condition(IntervalStart, GreaterThan, i.end));
    Query([Condition(IntervalStart, GreaterThan, i.end)])
  }

  /** `getCollectionName`: the table prefix followed by the suffix. */
  function CollectionName(tablePrefix: string): (r: string)
    ensures |r| == |tablePrefix| + |CollectionSuffix|
    ensures r[..|tablePrefix|] == tablePrefix && r[|tablePrefix|..] == "temporal"
  {
    tablePrefix + CollectionSuffix
  }

  /** Distinct table prefixes give distinct temporal collections. */
  lemma CollectionNameInjective(p1: string, p2: string)
    requires CollectionName(p1) == CollectionName(p2)
    ensures p1 == p2
  {
    assert |p1| == |p2|;
    assert p1 == CollectionName(p1)[..|p1|];
  }

  /** A stored instant is equal to, before, or after a query instant: exactly one matches. */
  lemma InstantRelationsPartition(q: int, d: TemporalDoc)
    requires d.instant.Some?
    ensures Matches(InstantEqualsInstant(q), d) || Matches(InstantBeforeInstant(q), d) || Matches(InstantAfterInstant(q), d)
    ensures !(Matches(InstantEqualsInstant(q), d) && Matches(InstantBeforeInstant(q), d))
    ensures !(Matches(InstantEqualsInstant(q), d) && Matches(InstantAfterInstant(q), d))
    ensures !(Matches(InstantBeforeInstant(q), d) && Matches(InstantAfterInstant(q), d))
  {
  }

  /**
   * Against a well-formed query interval, a stored instant is before it, inside it, after
   * it, or on one of its ends, and it is in no two of these at once.
   */
  lemma InstantIntervalRelations(i: Interval, d: TemporalDoc)
    requires i.beginning <= i.end && d.instant.Some?
    ensures Matches(InstantBeforeInterval(i), d) || Matches(InstantInsideInterval(i), d)
         || Matches(InstantAfterInterval(i), d)
         || Matches(InstantHasBeginningInterval(i), d) || Matches(InstantHasEndInterval(i), d)
    ensures !(Matches(InstantBeforeInterval(i), d) && Matches(InstantInsideInterval(i), d))
    ensures !(Matches(InstantInsideInterval(i), d) && Matches(InstantAfterInterval(i), d))
    ensures !(Matches(InstantBeforeInterval(i), d) && Matches(InstantAfterInterval(i), d))
    ensures Matches(InstantInsideInterval(i), d) ==>
      !Matches(InstantHasBeginningInterval(i), d) && !Matches(InstantHasEndInterval(i), d)
  {
  }

  /** A well-formed stored interval is never both before and after a well-formed query interval. */
  lemma IntervalBeforeAfterDisjoint(i: Interval, d: TemporalDoc)
    requires i.beginning <= i.end
    requires d.start.Some? && d.end.Some? && d.start.value <= d.end.value
    ensures !(Matches(IntervalBefore(i), d) && Matches(IntervalAfter(i), d))
    ensures Matches(IntervalEquals(i), d) ==> !Matches(IntervalBefore(i), d) && !Matches(IntervalAfter(i), d)
  {
  }
}
