/** The collaborators a join correlation builder talks to, seen only from the outside:
    the dialect flags it reads, the row-limiting policy it hands builders to, and the
    outer query builder whose join and subquery operations it calls.  Every call into
    the query builder or the limiter is recorded, in order, as an `Event` on one trace;
    what those calls do to the query being built is not modelled. */
module Collaborators {

  datatype Option<+T> = None | Some(value: T)

  /** The argument of `correlate`: one overload takes an entity class, the other a
      resolved entity type.  Both are passed through to the query builder unchanged. */
  datatype EntityRef = EntityClass(className: string) | EntityType(typeName: string)

  /** The two capabilities read from the dialect service of the outer query builder:
      whether its lateral style is `NONE`, and whether a `LIMIT` may appear inside a
      subquery of a quantified predicate such as `IN`. */
  datatype Dialect = Dialect(lateralStyleIsNone: bool, supportsLimitInQuantifiedPredicateSubquery: bool)

  /** A row-limiting policy.  What `apply` attaches to a builder is opaque; the model
      keeps only whether the call raises. */
  datatype Limiter = Limiter(applyFails: bool)

  /** A builder opened through the query builder, identified by the position in the
      trace of the call that opened it. */
  type Handle = nat

  /** Opaque references to the parameter holder and the optional-parameter map, which
      are handed to the limiter verbatim. */
  type ParameterHolderRef = nat
  type OptionalParametersRef = nat

  datatype Event =
    | LeftJoined(base: string, entity: EntityRef, alias: string)
    | InSubqueryOpened(joinOn: Handle, onAlias: string, entity: EntityRef, alias: string)
    | LateralJoined(base: string, entity: EntityRef, externalAlias: string, alias: string)
    | LimiterApplied(parameterHolder: ParameterHolderRef, optionalParameters: OptionalParametersRef, target: Handle)
    | SubqueryEnded(subquery: Handle)
    | JoinOnEnded(joinOn: Handle)
    | CteEnded(cte: Handle)

  /** Stand-in for the outer query builder (and the limiter's `apply`): each operation
      appends its call to `trace` and answers with the handle of what it opened. */
  class RecordingQueryBuilder {
    const dialect: Dialect
    var trace: seq<Event>

    constructor (dialect: Dialect)
      ensures this.dialect == dialect && trace == []
    {
      this.dialect := dialect;
      trace := [];
    }

    /** `leftJoinOn(base, entity, alias)`: a left join whose ON clause is built next. */
    method LeftJoinOn(base: string, entity: EntityRef, alias: string) returns (joinOn: Handle)
      modifies this
      ensures joinOn == |old(trace)|
      ensures trace == old(trace) + [LeftJoined(base, entity, alias)]
    {
      joinOn := |trace|;
      trace := trace + [LeftJoined(base, entity, alias)];
    }

    /** `joinOn.on(onAlias).in().from(entity, alias)`: a subquery over `entity` whose
        result `onAlias` must be a member of. */
    method OnInFrom(joinOn: Handle, onAlias: string, entity: EntityRef, alias: string) returns (subquery: Handle)
      modifies this
      ensures subquery == |old(trace)|
      ensures trace == old(trace) + [InSubqueryOpened(joinOn, onAlias, entity, alias)]
    {
      subquery := |trace|;
      trace := trace + [InSubqueryOpened(joinOn, onAlias, entity, alias)];
    }

    /** `leftJoinLateralEntitySubquery(base, entity, externalAlias, alias)`: a lateral
        join against an entity subquery, built through a CTE-style builder. */
    method LeftJoinLateralEntitySubquery(base: string, entity: EntityRef, externalAlias: string, alias: string)
      returns (cte: Handle)
      modifies this
      ensures cte == |old(trace)|
      ensures trace == old(trace) + [LateralJoined(base, entity, externalAlias, alias)]
    {
      cte := |trace|;
      trace := trace + [LateralJoined(base, entity, externalAlias, alias)];
    }

    /** `limiter.apply(parameterHolder, optionalParameters, target)`; `ok` is false
        when the call raises. */
    method ApplyLimiter(limiter: Limiter, parameterHolder: ParameterHolderRef,
                        optionalParameters: OptionalParametersRef, target: Handle)
      returns (ok: bool)
      modifies this
      ensures ok == !limiter.applyFails
      ensures trace == old(trace) + [LimiterApplied(parameterHolder, optionalParameters, target)]
    {
      ok := !limiter.applyFails;
      trace := trace + [LimiterApplied(parameterHolder, optionalParameters, target)];
    }

    /** `end()` on a subquery builder, which closes it and yields the join-on builder it
        was opened from. */
    method EndSubquery(subquery: Handle)
      modifies this
      ensures trace == old(trace) + [SubqueryEnded(subquery)]
    {
      trace := trace + [SubqueryEnded(subquery)];
    }

    /** `end()` on a join-on builder, which closes its ON clause. */
    method EndJoinOn(joinOn: Handle)
      modifies this
      ensures trace == old(trace) + [JoinOnEnded(joinOn)]
    {
      trace := trace + [JoinOnEnded(joinOn)];
    }

    /** `end()` on a lateral CTE-style builder. */
    method EndCte(cte: Handle)
      modifies this
      ensures trace == old(trace) + [CteEnded(cte)]
    {
      trace := trace + [CteEnded(cte)];
    }
  }
}
