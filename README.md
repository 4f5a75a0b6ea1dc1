# Join correlation builder

A model of Blaze-Persistence's `JoinCorrelationBuilder`, the entity-view component
that decides how a correlated attribute is fetched. One builder exists per correlation
site. It accepts one `correlate(entity)` call and picks one of three query shapes:

- no limiter: a plain left join under the correlation alias;
- a limiter and a dialect whose lateral style is `NONE`: a left join under the external
  alias, narrowed by a limited `IN` subquery over the entity under the correlation alias.
  This is rejected when the dialect cannot put `LIMIT` in a quantified predicate;
- a limiter and lateral joins: a lateral entity-subquery join bound under both aliases.

The builder remembers the nested builder it opened once the limiter has returned, and
`finish()` closes it. A limiter that raises leaves the builder it was handed open.

The model has three modules:

- `Collaborators` (`Collaborators.dfy`) stands in for the query builder, the dialect
  and the limiter. `RecordingQueryBuilder` appends every call made to it, or to the
  limiter, to one ordered `trace` of `Event`s. A builder it opens is identified by the
  position of the opening call in that trace.
- `JoinCorrelation` (`JoinCorrelationBuilder.dfy`) holds the specification functions
  `CorrelateStep` and `FinishEvents`. It also holds the class `JoinCorrelationBuilder`,
  whose fields mirror the Java class: the final fields become `const`s, `correlated`
  and `correlationBuilder` become `var`s. Its method `Correlate` updates those fields in
  place and `Finish` reads `correlationBuilder`; both call the recording builder in the
  source's order and are proved to agree with the specification functions. The untyped `correlationBuilder`
  field and its `instanceof` tests become the datatype
  `NestedBuilder = NoBuilder | Subquery(subquery, joinOn) | LateralCte(cte)`; a subquery
  keeps the handle of the left join it hangs off. Thrown exceptions become
  the `Outcome` datatype.
- `CorrelationProperties` (`CorrelationProperties.dfy`) proves what the builder
  promises. One group of lemmas covers each strategy. Another covers the two overloads.
  The rest are about `Run`, which applies any sequence of `correlate` and `finish`
  calls to a builder.

Three behaviours of the code are easy to miss:

- `correlated` is set to true before the limiter and dialect checks, before anything
  can fail. A `correlate` that fails the limit-support check, or whose limiter
  raises, still makes every later `correlate` fail.
- For an `IN` subquery, `finish` ends the subquery builder first and then the join-on
  builder that this returns (`end().end()`).
- `finish` has no guard. Every call repeats the same ends, so it is not idempotent.

## Model

| member | source | states |
|---|---|---|
| `Collaborators.RecordingQueryBuilder.LeftJoinOn` | entity-view/impl/src/main/java/com/blazebit/persistence/view/impl/objectbuilder/transformer/correlation/JoinCorrelationBuilder.java:94 | `leftJoinOn(base, entity, alias)` is recorded as the next call and answers with its own position as the join-on handle |
| `Collaborators.RecordingQueryBuilder.OnInFrom` | entity-view/impl/src/main/java/com/blazebit/persistence/view/impl/objectbuilder/transformer/correlation/JoinCorrelationBuilder.java:99 | `joinOn.on(alias).in().from(entity, alias)` is recorded with the join-on it hangs off; its position is the subquery handle |
| `Collaborators.RecordingQueryBuilder.LeftJoinLateralEntitySubquery` | entity-view/impl/src/main/java/com/blazebit/persistence/view/impl/objectbuilder/transformer/correlation/JoinCorrelationBuilder.java:104 | the lateral entity-subquery join is recorded with both aliases; its position is the CTE builder handle |
| `Collaborators.RecordingQueryBuilder.ApplyLimiter` | entity-view/impl/src/main/java/com/blazebit/persistence/view/impl/objectbuilder/transformer/correlation/JoinCorrelationBuilder.java:100 | `limiter.apply` is recorded with the parameter holder and option map passed verbatim and the target builder; it reports failure exactly when the limiter raises |
| `Collaborators.RecordingQueryBuilder.EndSubquery` | entity-view/impl/src/main/java/com/blazebit/persistence/view/impl/objectbuilder/transformer/correlation/JoinCorrelationBuilder.java:80 | ending the subquery builder is recorded with its handle |
| `Collaborators.RecordingQueryBuilder.EndJoinOn` | entity-view/impl/src/main/java/com/blazebit/persistence/view/impl/objectbuilder/transformer/correlation/JoinCorrelationBuilder.java:80 | ending the join-on builder returned by the subquery's `end()` is recorded with the handle of its left join |
| `Collaborators.RecordingQueryBuilder.EndCte` | entity-view/impl/src/main/java/com/blazebit/persistence/view/impl/objectbuilder/transformer/correlation/JoinCorrelationBuilder.java:82 | ending the lateral CTE builder is recorded with its handle |
| `JoinCorrelation.LimitUnsupportedMessageMentionsPath` | entity-view/impl/src/main/java/com/blazebit/persistence/view/impl/objectbuilder/transformer/correlation/JoinCorrelationBuilder.java:140 | the `IllegalStateException` message contains the attribute path |
| `JoinCorrelation.LimitSupportError` | entity-view/impl/src/main/java/com/blazebit/persistence/view/impl/objectbuilder/transformer/correlation/JoinCorrelationBuilder.java:138-142 | the limit-support check fails if and only if the dialect cannot limit inside a quantified predicate, and its message names the attribute path |
| `JoinCorrelation.CorrelateStep` | entity-view/impl/src/main/java/com/blazebit/persistence/view/impl/objectbuilder/transformer/correlation/JoinCorrelationBuilder.java:87-110 | after any `correlate` the builder is correlated; calls are only appended (at most three); success only from an uncorrelated builder; the nested builder changes only on success; the state invariant is kept |
| `JoinCorrelation.FinishEvents` | entity-view/impl/src/main/java/com/blazebit/persistence/view/impl/objectbuilder/transformer/correlation/JoinCorrelationBuilder.java:78-84 | `finish` makes only end calls, at most two, and none exactly when no nested builder is held |
| `JoinCorrelation.JoinCorrelationBuilder.constructor` | entity-view/impl/src/main/java/com/blazebit/persistence/view/impl/objectbuilder/transformer/correlation/JoinCorrelationBuilder.java:52-61 | stores the eight arguments; the builder starts uncorrelated with no nested builder |
| `JoinCorrelation.JoinCorrelationBuilder.GetCorrelationAlias` | entity-view/impl/src/main/java/com/blazebit/persistence/view/impl/objectbuilder/transformer/correlation/JoinCorrelationBuilder.java:73-76 | returns the correlation alias |
| `JoinCorrelation.JoinCorrelationBuilder.Finish` | entity-view/impl/src/main/java/com/blazebit/persistence/view/impl/objectbuilder/transformer/correlation/JoinCorrelationBuilder.java:78-84 | dispatches on the held nested builder and appends exactly its end calls, changing no field |
| `JoinCorrelation.JoinCorrelationBuilder.Correlate` | entity-view/impl/src/main/java/com/blazebit/persistence/view/impl/objectbuilder/transformer/correlation/JoinCorrelationBuilder.java:87-110 | the outcome, the new `correlated`/`correlationBuilder` and the new trace are those of `CorrelateStep`; the state invariant is kept |
| `JoinCorrelation.JoinCorrelationBuilder.CheckLimitSupport` | entity-view/impl/src/main/java/com/blazebit/persistence/view/impl/objectbuilder/transformer/correlation/JoinCorrelationBuilder.java:138-142 | raises (returns a message) exactly as `LimitSupportError` says |
| `CorrelationProperties.SecondCorrelateIsRejected` | entity-view/impl/src/main/java/com/blazebit/persistence/view/impl/objectbuilder/transformer/correlation/JoinCorrelationBuilder.java:88-90 | on a correlated builder `correlate` fails with "Can not correlate with multiple entity classes!", makes no call and changes no field |
| `CorrelationProperties.PlainJoinWithoutLimiter` | entity-view/impl/src/main/java/com/blazebit/persistence/view/impl/objectbuilder/transformer/correlation/JoinCorrelationBuilder.java:93-94 | without a limiter: exactly one left join under the correlation alias, its join-on builder returned, no limiter call, no nested builder, the same for every dialect, and `finish` then makes no call |
| `CorrelationProperties.LimitUnsupportedWithoutLateral` | entity-view/impl/src/main/java/com/blazebit/persistence/view/impl/objectbuilder/transformer/correlation/JoinCorrelationBuilder.java:96-97 | limiter, lateral style `NONE`, no `LIMIT` in quantified predicates: fails naming the attribute path, with no call made and no nested builder, yet the builder is correlated |
| `CorrelationProperties.LimitedSubqueryWithoutLateral` | entity-view/impl/src/main/java/com/blazebit/persistence/view/impl/objectbuilder/transformer/correlation/JoinCorrelationBuilder.java:98-102 | limiter, lateral style `NONE`, `LIMIT` supported: left join under the external alias, then the `IN` subquery off that join over the entity under the correlation alias, then the limiter on that subquery; it is recorded and its join-on view returned only if the limiter returns |
| `CorrelationProperties.LateralJoinWithLimiter` | entity-view/impl/src/main/java/com/blazebit/persistence/view/impl/objectbuilder/transformer/correlation/JoinCorrelationBuilder.java:103-107 | limiter and lateral joins: one lateral join bound under both aliases, then the limiter on it; recorded as `LateralCte` only if the limiter returns; the quantified-predicate flag does not matter |
| `CorrelationProperties.LimiterFailureRecordsNoBuilder` | entity-view/impl/src/main/java/com/blazebit/persistence/view/impl/objectbuilder/transformer/correlation/JoinCorrelationBuilder.java:100-101 | when the limiter raises, its call was the last one made, no nested builder is recorded, and `finish` makes no call |
| `CorrelationProperties.FinishEndsTheLimitedBuilder` | entity-view/impl/src/main/java/com/blazebit/persistence/view/impl/objectbuilder/transformer/correlation/JoinCorrelationBuilder.java:99-106 | the recorded nested builder is the one the limiter was handed, opened at its handle, and `finish` ends it: the subquery and then the ON clause of the left join it hangs off, or the CTE |
| `CorrelationProperties.CorrelateOverloadsAgree` | entity-view/impl/src/main/java/com/blazebit/persistence/view/impl/objectbuilder/transformer/correlation/JoinCorrelationBuilder.java:113-136 | `correlate(Class)` and `correlate(EntityType)` give the same outcome and state, and each one's calls are the other's with the entity argument replaced |
| `CorrelationProperties.OneOverloadRetargets` | entity-view/impl/src/main/java/com/blazebit/persistence/view/impl/objectbuilder/transformer/correlation/JoinCorrelationBuilder.java:113-136 | for any two entity arguments, the calls of one `correlate` are those of the other with the entity argument replaced |
| `CorrelationProperties.Run` | entity-view/impl/src/main/java/com/blazebit/persistence/view/impl/objectbuilder/transformer/correlation/JoinCorrelationBuilder.java:78-136 | over any sequence of calls the trace only grows, one outcome per `correlate` is added, the builder is correlated exactly when it was or some `correlate` was called, and the state invariant is kept |
| `CorrelationProperties.OnlyTheFirstCorrelateCanSucceed` | entity-view/impl/src/main/java/com/blazebit/persistence/view/impl/objectbuilder/transformer/correlation/JoinCorrelationBuilder.java:88-92 | in any sequence of calls every `correlate` after the first, and every one on a correlated builder, fails with the multiple-entity-classes error |
| `CorrelationProperties.AfterCorrelationOnlyFinishEmits` | entity-view/impl/src/main/java/com/blazebit/persistence/view/impl/objectbuilder/transformer/correlation/JoinCorrelationBuilder.java:78-92 | once correlated, the state never changes and the only calls are the ends of `finish`, repeated once per `finish` |
| `CorrelationProperties.FinishWithoutBuilderIsNoOp` | entity-view/impl/src/main/java/com/blazebit/persistence/view/impl/objectbuilder/transformer/correlation/JoinCorrelationBuilder.java:78-84 | a correlated builder holding no nested builder makes no call whatever is called next |
| `CorrelationProperties.AtMostOneJoin` | entity-view/impl/src/main/java/com/blazebit/persistence/view/impl/objectbuilder/transformer/correlation/JoinCorrelationBuilder.java:88-107 | over its whole life a builder emits at most one join (plain or lateral), and none once correlated |
| `CorrelationProperties.CorrelateThenFinishClosesNested` | entity-view/impl/src/main/java/com/blazebit/persistence/view/impl/objectbuilder/transformer/correlation/JoinCorrelationBuilder.java:78-107 | on a builder whose earlier calls left nothing open, a successful `correlate` followed by any calls that include a `finish` leaves nothing open: every subquery, its left join's ON clause, and every lateral builder are ended |
| `CorrelationProperties.FreshCorrelateThenFinishClosesNested` | entity-view/impl/src/main/java/com/blazebit/persistence/view/impl/objectbuilder/transformer/correlation/JoinCorrelationBuilder.java:78-107 | on a fresh builder, a successful `correlate` then `finish` leaves nothing open |
| `CorrelationProperties.LimiterFailureLeavesNestedOpen` | entity-view/impl/src/main/java/com/blazebit/persistence/view/impl/objectbuilder/transformer/correlation/JoinCorrelationBuilder.java:98-106 | on any consistent, uncorrelated builder whose limiter raises on the subquery or lateral path, `correlate` fails with the limiter, no later calls (any number of `finish`es) add anything, and the builder the limiter was handed stays open |
| `CorrelationProperties.FreshLimiterFailureLeavesNestedOpen` | entity-view/impl/src/main/java/com/blazebit/persistence/view/impl/objectbuilder/transformer/correlation/JoinCorrelationBuilder.java:98-106 | on a fresh builder whose limiter raises, `correlate` then `finish` gives only `LimiterFailed` and leaves that builder open |

## Left out

- `getService` and `getCorrelationFromProvider` are pass-throughs to the outer query builder. Only the two dialect flags obtained through `getService(DbmsDialect.class)` are modelled, as `Dialect`.
- What `leftJoinOn`, `on(..).in().from(..)`, `leftJoinLateralEntitySubquery` and `end()` do to the query is not modelled. They live in the query builder library. Each call is recorded as a trace event, and each builder it opens is an opaque handle.
- `getService(JoinOnBuilder.class)` on the nested builder is not recorded: `correlate` returns its result as the opaque `JoinOnServiceOf(h)`.
- A failure raised by the query builder's own calls is not modelled. The recording builder always succeeds. Only the limiter may fail.
- `Limiter.apply` is a call that succeeds or raises. What it attaches (limit, offset, ordering) is not modelled. The parameter holder and optional-parameter map are opaque references passed through unchanged.
- The two `correlate` overloads differ only in the JPA type of the argument (`Class` or `EntityType`). This becomes the `EntityRef` datatype, and the generic casts on the returned builder are dropped.
- The lateral style is reduced to whether it is `NONE`, the only test the code makes. SQL generation, execution and dialect detection are not modelled.
