/** A join correlation builder: bound to one correlation site, it accepts one
    `correlate` call, chooses between a plain left join, a left join narrowed by a
    limited `IN` subquery, and a lateral entity-subquery join, and on `finish` closes
    whatever nested builder that choice opened.

    The functions below say what one call does to the builder's state and to the
    trace of collaborator calls; the class `JoinCorrelationBuilder` does it in place
    and is proved to agree with them. */
module JoinCorrelation {
  import opened Collaborators

  /** The nested builder the builder remembers so that `finish` can close it.  A
      subquery builder knows the join-on builder it was opened from, which is what its
      `end()` hands back. */
  datatype NestedBuilder = NoBuilder | Subquery(subquery: Handle, joinOn: Handle) | LateralCte(cte: Handle)

  /** What a successful `correlate` hands back: the join-on builder of a plain left
      join, or the join-on view (`getService(JoinOnBuilder.class)`) of a nested builder. */
  datatype JoinTarget = JoinOnBuilder(joinOn: Handle) | JoinOnServiceOf(nested: Handle)

  /** How a `correlate` call ends.  `AlreadyCorrelated` stands for the
      `IllegalArgumentException`, `LimitUnsupported` for the `IllegalStateException`
      of the limit-support check, and `LimiterFailed` for whatever the limiter raised. */
  datatype Outcome =
    | Ok(target: JoinTarget)
    | AlreadyCorrelated(message: string)
    | LimitUnsupported(message: string)
    | LimiterFailed

  /** The builder's final fields, together with the dialect flags its query builder reports. */
  datatype Request = Request(
    parameterHolder: ParameterHolderRef,
    optionalParameters: OptionalParametersRef,
    dialect: Dialect,
    joinBase: string,
    correlationAlias: string,
    correlationExternalAlias: string,
    attributePath: string,
    limiter: Option<Limiter>)

  /** The builder's mutable fields `correlated` and `correlationBuilder`. */
  datatype State = State(correlated: bool, nested: NestedBuilder)

  const Initial := State(false, NoBuilder)

  /** The outcome of one call, the builder's state after it, and the whole trace after it. */
  datatype Step = Step(outcome: Outcome, state: State, trace: seq<Event>)

  const AlreadyCorrelatedMessage := "Can not correlate with multiple entity classes!"

  const LimitUnsupportedPrefix := "Can't limit the amount of elements for the attribute path "
  const LimitUnsupportedSuffix :=
    " because the DBMS doesn't support lateral or the use of LIMIT in quantified predicates!"
    + " Use the SELECT strategy with batch size 1 if you really need this."

  function LimitUnsupportedMessage(attributePath: string): string {
    LimitUnsupportedPrefix + attributePath + LimitUnsupportedSuffix
  }

  /** True when `text` holds `part` as a contiguous piece. */
  ghost predicate Mentions(text: string, part: string) {
    exists i :: 0 <= i <= |text| && part <= text[i..]
  }

  /** The limit-support error names the offending attribute path. */
  lemma LimitUnsupportedMessageMentionsPath(attributePath: string)
    ensures Mentions(LimitUnsupportedMessage(attributePath), attributePath)
  {
    var message := LimitUnsupportedMessage(attributePath);
    var at := |LimitUnsupportedPrefix|;
    assert message[at..] == attributePath + LimitUnsupportedSuffix;
  }

  /** The nested builder refers to the call that opened a builder of its kind. */
  predicate NestedOpened(nested: NestedBuilder, trace: seq<Event>) {
    match nested
    case NoBuilder => true
    case Subquery(h, j) =>
      h < |trace| && trace[h].InSubqueryOpened? && trace[h].joinOn == j && j < |trace| && trace[j].LeftJoined?
    case LateralCte(h) => h < |trace| && trace[h].LateralJoined?
  }

  /** What every reachable state satisfies: nothing is nested before a correlation,
      and a nested builder is one that was opened. */
  predicate Consistent(st: State, trace: seq<Event>) {
    (!st.correlated ==> st.nested == NoBuilder) && NestedOpened(st.nested, trace)
  }

  /** The error `checkLimitSupport` raises, if any: exactly when the dialect cannot
      limit rows inside a quantified predicate, and naming the attribute path. */
  function LimitSupportError(req: Request): (error: Option<string>)
    ensures error.None? <==> req.dialect.supportsLimitInQuantifiedPredicateSubquery
    ensures error.Some? ==> Mentions(error.value, req.attributePath)
  {
    if req.dialect.supportsLimitInQuantifiedPredicateSubquery then None
    else
      LimitUnsupportedMessageMentionsPath(req.attributePath);
      Some(LimitUnsupportedMessage(req.attributePath))
  }

  /** One call of `correlate(entity)` from state `st` after the collaborator calls `trace`. */
  function CorrelateStep(req: Request, st: State, entity: EntityRef, trace: seq<Event>): (r: Step)
    ensures r.state.correlated
    ensures |trace| <= |r.trace| && r.trace[..|trace|] == trace
    ensures r.outcome.Ok? ==> !st.correlated
    ensures r.state.nested != st.nested ==> r.outcome.Ok? && r.state.nested != NoBuilder
    ensures |r.trace| <= |trace| + 3
    ensures Consistent(st, trace) ==> Consistent(r.state, r.trace)
  {
    if st.correlated then
      Step(AlreadyCorrelated(AlreadyCorrelatedMessage), st, trace)
    else
      var bound := st.(correlated := true);
      match req.limiter
      case None =>
        Step(Ok(JoinOnBuilder(|trace|)), bound, trace + [LeftJoined(req.joinBase, entity, req.correlationAlias)])
      case Some(limiter) =>
        if req.dialect.lateralStyleIsNone then
          match LimitSupportError(req)
          case Some(message) =>
            Step(LimitUnsupported(message), bound, trace)
          case None =>
            var joinOn := |trace|;
            var subquery := joinOn + 1;
            var emitted := trace + [
              LeftJoined(req.joinBase, entity, req.correlationExternalAlias),
              InSubqueryOpened(joinOn, req.correlationExternalAlias, entity, req.correlationAlias),
              LimiterApplied(req.parameterHolder, req.optionalParameters, subquery)];
            if limiter.applyFails then Step(LimiterFailed, bound, emitted)
            else Step(Ok(JoinOnServiceOf(subquery)), bound.(nested := Subquery(subquery, joinOn)), emitted)
        else
          var cte := |trace|;
          var emitted := trace + [
            LateralJoined(req.joinBase, entity, req.correlationExternalAlias, req.correlationAlias),
            LimiterApplied(req.parameterHolder, req.optionalParameters, cte)];
          if limiter.applyFails then Step(LimiterFailed, bound, emitted)
          else Step(Ok(JoinOnServiceOf(cte)), bound.(nested := LateralCte(cte)), emitted)
  }

  /** The calls `finish()` makes for the nested builder it holds. */
  function FinishEvents(nested: NestedBuilder): (events: seq<Event>)
    ensures events == [] <==> nested == NoBuilder
    ensures |events| <= 2
    ensures forall i :: 0 <= i < |events| ==> events[i].SubqueryEnded? || events[i].JoinOnEnded? || events[i].CteEnded?
  {
    match nested
    case NoBuilder => []
    case Subquery(h, j) => [SubqueryEnded(h), JoinOnEnded(j)]
    case LateralCte(h) => [CteEnded(h)]
  }

  class JoinCorrelationBuilder {
    const parameterHolder: ParameterHolderRef
    const optionalParameters: OptionalParametersRef
    const criteriaBuilder: RecordingQueryBuilder
    const joinBase: string
    const correlationAlias: string
    const correlationExternalAlias: string
    const attributePath: string
    const limiter: Option<Limiter>
    var correlated: bool
    var correlationBuilder: NestedBuilder

    function AsRequest(): Request {
      Request(parameterHolder, optionalParameters, criteriaBuilder.dialect, joinBase,
              correlationAlias, correlationExternalAlias, attributePath, limiter)
    }

    function CurrentState(): State
      reads this
    {
      State(correlated, correlationBuilder)
    }

    ghost predicate Valid()
      reads this, criteriaBuilder
    {
      Consistent(CurrentState(), criteriaBuilder.trace)
    }

    constructor (parameterHolder: ParameterHolderRef, optionalParameters: OptionalParametersRef,
                 criteriaBuilder: RecordingQueryBuilder, joinBase: string, correlationAlias: string,
                 correlationExternalAlias: string, attributePath: string, limiter: Option<Limiter>)
      ensures Valid()
      ensures AsRequest() == Request(parameterHolder, optionalParameters, criteriaBuilder.dialect, joinBase,
                                     correlationAlias, correlationExternalAlias, attributePath, limiter)
      ensures this.criteriaBuilder == criteriaBuilder
      ensures CurrentState() == Initial
    {
      this.parameterHolder := parameterHolder;
      this.optionalParameters := optionalParameters;
      this.criteriaBuilder := criteriaBuilder;
      this.joinBase := joinBase;
      this.correlationAlias := correlationAlias;
      this.correlationExternalAlias := correlationExternalAlias;
      this.attributePath := attributePath;
      this.limiter := limiter;
      correlated := false;
      correlationBuilder := NoBuilder;
    }

    method GetCorrelationAlias() returns (alias: string)
      ensures alias == correlationAlias
    {
      alias := correlationAlias;
    }

    /** `finish()`: close the nested builder, if any; there is no guard against a second call. */
    method Finish()
      requires Valid()
      modifies criteriaBuilder
      ensures Valid()
      ensures criteriaBuilder.trace == old(criteriaBuilder.trace) + FinishEvents(correlationBuilder)
    {
      match correlationBuilder
      case Subquery(subquery, joinOn) =>
        criteriaBuilder.EndSubquery(subquery);
        criteriaBuilder.EndJoinOn(joinOn);
      case LateralCte(cte) =>
        criteriaBuilder.EndCte(cte);
      case NoBuilder =>
    }

    /** `correlate(entity)`, both overloads. */
    method Correlate(entity: EntityRef) returns (outcome: Outcome)
      requires Valid()
      modifies this, criteriaBuilder
      ensures Valid()
      ensures var r := CorrelateStep(AsRequest(), old(CurrentState()), entity, old(criteriaBuilder.trace));
              outcome == r.outcome && CurrentState() == r.state && criteriaBuilder.trace == r.trace
    {
      if correlated {
        return AlreadyCorrelated(AlreadyCorrelatedMessage);
      }
      correlated := true;
      if limiter.None? {
        var joinOn := criteriaBuilder.LeftJoinOn(joinBase, entity, correlationAlias);
        return Ok(JoinOnBuilder(joinOn));
      }
      if criteriaBuilder.dialect.lateralStyleIsNone {
        var error := CheckLimitSupport();
        if error.Some? {
          return LimitUnsupported(error.value);
        }
        var joinOn := criteriaBuilder.LeftJoinOn(joinBase, entity, correlationExternalAlias);
        var subquery := criteriaBuilder.OnInFrom(joinOn, correlationExternalAlias, entity, correlationAlias);
        var applied := criteriaBuilder.ApplyLimiter(limiter.value, parameterHolder, optionalParameters, subquery);
        if !applied {
          return LimiterFailed;
        }
        correlationBuilder := Subquery(subquery, joinOn);
        return Ok(JoinOnServiceOf(subquery));
      } else {
        var cte := criteriaBuilder.LeftJoinLateralEntitySubquery(joinBase, entity, correlationExternalAlias, correlationAlias);
        var applied := criteriaBuilder.ApplyLimiter(limiter.value, parameterHolder, optionalParameters, cte);
        if !applied {
          return LimiterFailed;
        }
        correlationBuilder := LateralCte(cte);
        return Ok(JoinOnServiceOf(cte));
      }
    }

    /** `checkLimitSupport()`: `Some(message)` where the source raises `IllegalStateException`. */
    method CheckLimitSupport() returns (error: Option<string>)
      ensures error == LimitSupportError(AsRequest())
    {
      if !criteriaBuilder.dialect.supportsLimitInQuantifiedPredicateSubquery {
        return Some(LimitUnsupportedMessage(attributePath));
      }
      return None;
    }
  }
}
