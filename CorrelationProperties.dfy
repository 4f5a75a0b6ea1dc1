/** What a join correlation builder promises: the strategy each combination of
    limiter and dialect flags selects, the single-correlation guard, what `finish`
    closes, and, over any sequence of `correlate` and `finish` calls, that at most one
    correlation target is ever bound. */
module CorrelationProperties {
  import opened Collaborators
  import opened JoinCorrelation

  // ---------------------------------------------------------------------------
  // One call of `correlate`
  // ---------------------------------------------------------------------------

  /** A second `correlate` is rejected with the fixed message, emits no call and
      changes nothing. */
  lemma SecondCorrelateIsRejected(req: Request, st: State, entity: EntityRef, trace: seq<Event>)
    requires st.correlated
    ensures CorrelateStep(req, st, entity, trace) == Step(AlreadyCorrelated(AlreadyCorrelatedMessage), st, trace)
  {
  }

  /** Without a limiter: exactly one left join under the correlation alias, no limiter
      call, no nested builder, whatever the dialect reports; `finish` then does nothing. */
  lemma PlainJoinWithoutLimiter(req: Request, st: State, entity: EntityRef, trace: seq<Event>, other: Dialect)
    requires Consistent(st, trace) && !st.correlated && req.limiter.None?
    ensures var r := CorrelateStep(req, st, entity, trace);
            && r.outcome == Ok(JoinOnBuilder(|trace|))
            && r.trace == trace + [LeftJoined(req.joinBase, entity, req.correlationAlias)]
            && r.state == State(true, NoBuilder)
            && FinishEvents(r.state.nested) == []
            && CorrelateStep(req.(dialect := other), st, entity, trace) == r
  {
  }

  /** With a limiter, no lateral joins and no `LIMIT` in quantified predicates: the
      call fails naming the attribute path, before any join or subquery is emitted and
      without recording a nested builder; the correlation counts as made all the same. */
  lemma LimitUnsupportedWithoutLateral(req: Request, st: State, entity: EntityRef, trace: seq<Event>)
    requires Consistent(st, trace) && !st.correlated && req.limiter.Some?
    requires req.dialect.lateralStyleIsNone && !req.dialect.supportsLimitInQuantifiedPredicateSubquery
    ensures var r := CorrelateStep(req, st, entity, trace);
            && r.outcome.LimitUnsupported?
            && Mentions(r.outcome.message, req.attributePath)
            && r.trace == trace
            && r.state == State(true, NoBuilder)
  {
    LimitUnsupportedMessageMentionsPath(req.attributePath);
  }

  /** With a limiter, no lateral joins but `LIMIT` in quantified predicates: a left join
      under the external alias, then an `IN` subquery off it selecting the entity under
      the correlation alias, then the limiter on that subquery, which is recorded as the
      nested builder only if the limiter returns. */
  lemma LimitedSubqueryWithoutLateral(req: Request, st: State, entity: EntityRef, trace: seq<Event>)
    requires Consistent(st, trace) && !st.correlated && req.limiter.Some?
    requires req.dialect.lateralStyleIsNone && req.dialect.supportsLimitInQuantifiedPredicateSubquery
    ensures var r := CorrelateStep(req, st, entity, trace);
            var subquery := |trace| + 1;
            && r.trace == trace + [
                 LeftJoined(req.joinBase, entity, req.correlationExternalAlias),
                 InSubqueryOpened(|trace|, req.correlationExternalAlias, entity, req.correlationAlias),
                 LimiterApplied(req.parameterHolder, req.optionalParameters, subquery)]
            && r.outcome == (if req.limiter.value.applyFails then LimiterFailed else Ok(JoinOnServiceOf(subquery)))
            && r.state == State(true, if req.limiter.value.applyFails then NoBuilder else Subquery(subquery, |trace|))
  {
  }

  /** With a limiter and lateral joins: one lateral entity-subquery join bound under both
      aliases, then the limiter on that builder, recorded as the nested builder only if
      the limiter returns; the quantified-predicate flag is never consulted. */
  lemma LateralJoinWithLimiter(req: Request, st: State, entity: EntityRef, trace: seq<Event>, quantifiedLimit: bool)
    requires Consistent(st, trace) && !st.correlated && req.limiter.Some?
    requires !req.dialect.lateralStyleIsNone
    ensures var r := CorrelateStep(req, st, entity, trace);
            var cte := |trace|;
            && r.trace == trace + [
                 LateralJoined(req.joinBase, entity, req.correlationExternalAlias, req.correlationAlias),
                 LimiterApplied(req.parameterHolder, req.optionalParameters, cte)]
            && r.outcome == (if req.limiter.value.applyFails then LimiterFailed else Ok(JoinOnServiceOf(cte)))
            && r.state == State(true, if req.limiter.value.applyFails then NoBuilder else LateralCte(cte))
            && CorrelateStep(req.(dialect := Dialect(false, quantifiedLimit)), st, entity, trace) == r
  {
  }

  /** A limiter that raises leaves no nested builder behind, so a later `finish` does
      nothing; the limiter call was the last call made. */
  lemma LimiterFailureRecordsNoBuilder(req: Request, st: State, entity: EntityRef, trace: seq<Event>)
    requires Consistent(st, trace)
    requires CorrelateStep(req, st, entity, trace).outcome == LimiterFailed
    ensures var r := CorrelateStep(req, st, entity, trace);
            && r.state.nested == NoBuilder
            && FinishEvents(r.state.nested) == []
            && r.trace[|r.trace| - 1] == LimiterApplied(req.parameterHolder, req.optionalParameters, |r.trace| - 2)
  {
  }

  /** The builder the limiter was handed is the one recorded, the one opened by the
      call at its handle, and the one `finish` ends first; for an `IN` subquery `finish`
      then ends the ON clause of the left join the subquery hangs off. */
  lemma FinishEndsTheLimitedBuilder(req: Request, st: State, entity: EntityRef, trace: seq<Event>)
    requires Consistent(st, trace)
    ensures var r := CorrelateStep(req, st, entity, trace);
            && (r.state.nested.Subquery? && !st.nested.Subquery? ==>
                  var h := r.state.nested.subquery;
                  && r.trace[h].InSubqueryOpened?
                  && r.trace[|r.trace| - 1] == LimiterApplied(req.parameterHolder, req.optionalParameters, h)
                  && r.trace[r.trace[h].joinOn].LeftJoined?
                  && FinishEvents(r.state.nested) == [SubqueryEnded(h), JoinOnEnded(r.trace[h].joinOn)])
            && (r.state.nested.LateralCte? && !st.nested.LateralCte? ==>
                  var h := r.state.nested.cte;
                  && r.trace[h].LateralJoined?
                  && r.trace[|r.trace| - 1] == LimiterApplied(req.parameterHolder, req.optionalParameters, h)
                  && FinishEvents(r.state.nested) == [CteEnded(h)])
  {
  }

  // ---------------------------------------------------------------------------
  // The two overloads
  // ---------------------------------------------------------------------------

  /** `event` with the entity it carries, if any, replaced by `entity`. */
  function WithEntity(event: Event, entity: EntityRef): Event {
    match event
    case LeftJoined(base, _, alias) => LeftJoined(base, entity, alias)
    case InSubqueryOpened(joinOn, onAlias, _, alias) => InSubqueryOpened(joinOn, onAlias, entity, alias)
    case LateralJoined(base, _, externalAlias, alias) => LateralJoined(base, entity, externalAlias, alias)
    case _ => event
  }

  /** `events` with every entity argument replaced by `entity`. */
  function Retarget(events: seq<Event>, entity: EntityRef): seq<Event> {
    seq(|events|, i requires 0 <= i < |events| => WithEntity(events[i], entity))
  }

  /** `correlate(Class)` and `correlate(EntityType)` make the same decision, reach the
      same state and make the same calls; the only difference in the trace is the entity
      argument passed through. */
  lemma CorrelateOverloadsAgree(req: Request, st: State, className: string, typeName: string, trace: seq<Event>)
    ensures var byClass := CorrelateStep(req, st, EntityClass(className), trace);
            var byType := CorrelateStep(req, st, EntityType(typeName), trace);
            && byClass.outcome == byType.outcome
            && byClass.state == byType.state
            && byClass.trace == trace + Retarget(byType.trace[|trace|..], EntityClass(className))
            && byType.trace == trace + Retarget(byClass.trace[|trace|..], EntityType(typeName))
  {
    var c, t := EntityClass(className), EntityType(typeName);
    var byClass := CorrelateStep(req, st, c, trace);
    var byType := CorrelateStep(req, st, t, trace);
    OneOverloadRetargets(req, st, t, c, trace);
    OneOverloadRetargets(req, st, c, t, trace);
  }

  /** The calls `correlate(from)` makes are those of `correlate(to)` with the entity
      argument replaced. */
  lemma OneOverloadRetargets(req: Request, st: State, to: EntityRef, from: EntityRef, trace: seq<Event>)
    ensures CorrelateStep(req, st, to, trace).trace
            == trace + Retarget(CorrelateStep(req, st, from, trace).trace[|trace|..], to)
  {
    var byTo := CorrelateStep(req, st, to, trace);
    var emitted := CorrelateStep(req, st, from, trace).trace[|trace|..];
    if !st.correlated && req.limiter.Some? {
      if req.dialect.lateralStyleIsNone && req.dialect.supportsLimitInQuantifiedPredicateSubquery {
        assert Retarget(emitted, to) == [WithEntity(emitted[0], to), WithEntity(emitted[1], to), WithEntity(emitted[2], to)];
      } else if !req.dialect.lateralStyleIsNone {
        assert Retarget(emitted, to) == [WithEntity(emitted[0], to), WithEntity(emitted[1], to)];
      }
    } else if !st.correlated {
      assert Retarget(emitted, to) == [WithEntity(emitted[0], to)];
    }
    assert byTo.trace[|trace|..] == Retarget(emitted, to);
    assert byTo.trace == trace + byTo.trace[|trace|..];
  }

  // ---------------------------------------------------------------------------
  // Sequences of calls
  // ---------------------------------------------------------------------------

  /** A call the query compiler makes on the builder. */
  datatype Call = CorrelateCall(entity: EntityRef) | FinishCall

  /** The builder's state, the trace so far and the outcome of every `correlate` so far. */
  datatype Session = Session(state: State, trace: seq<Event>, outcomes: seq<Outcome>)

  const Fresh := Session(Initial, [], [])

  function Perform(req: Request, s: Session, call: Call): Session {
    match call
    case CorrelateCall(entity) =>
      var r := CorrelateStep(req, s.state, entity, s.trace);
      Session(r.state, r.trace, s.outcomes + [r.outcome])
    case FinishCall =>
      s.(trace := s.trace + FinishEvents(s.state.nested))
  }

  function Correlations(calls: seq<Call>): nat {
    if calls == [] then 0 else (if calls[0].CorrelateCall? then 1 else 0) + Correlations(calls[1..])
  }

  function Finishes(calls: seq<Call>): nat {
    if calls == [] then 0 else (if calls[0].FinishCall? then 1 else 0) + Finishes(calls[1..])
  }

  /** The calls `calls` made in order from session `s`. */
  function Run(req: Request, s: Session, calls: seq<Call>): (r: Session)
    ensures |s.trace| <= |r.trace| && r.trace[..|s.trace|] == s.trace
    ensures |r.outcomes| == |s.outcomes| + Correlations(calls) && r.outcomes[..|s.outcomes|] == s.outcomes
    ensures r.state.correlated == (s.state.correlated || Correlations(calls) > 0)
    ensures Consistent(s.state, s.trace) ==> Consistent(r.state, r.trace)
    decreases |calls|
  {
    if calls == [] then s else Run(req, Perform(req, s, calls[0]), calls[1..])
  }

  /** `events` repeated `n` times. */
  function Repeat(events: seq<Event>, n: nat): seq<Event> {
    if n == 0 then [] else events + Repeat(events, n - 1)
  }

  /** Of all the `correlate` calls a builder ever receives, only the first can succeed;
      every later one is rejected with the fixed message, as is every one on a builder
      already correlated. */
  lemma {:induction false} OnlyTheFirstCorrelateCanSucceed(req: Request, s: Session, calls: seq<Call>)
    ensures var r := Run(req, s, calls);
            forall i :: |s.outcomes| <= i < |r.outcomes| && (s.state.correlated || i > |s.outcomes|) ==>
              r.outcomes[i] == AlreadyCorrelated(AlreadyCorrelatedMessage)
    decreases |calls|
  {
    if calls != [] {
      var s1 := Perform(req, s, calls[0]);
      var r := Run(req, s1, calls[1..]);
      assert Run(req, s, calls) == r;
      OnlyTheFirstCorrelateCanSucceed(req, s1, calls[1..]);
      forall i | |s.outcomes| <= i < |r.outcomes| && (s.state.correlated || i > |s.outcomes|)
        ensures r.outcomes[i] == AlreadyCorrelated(AlreadyCorrelatedMessage)
      {
        if calls[0].CorrelateCall? && i == |s.outcomes| {
          // the first call of the sequence, on a builder already correlated
          SecondCorrelateIsRejected(req, s.state, calls[0].entity, s.trace);
          assert r.outcomes[i] == s1.outcomes[i];
        } else {
          assert |s1.outcomes| <= i && (s1.state.correlated || i > |s1.outcomes|);
          assert Run(req, s1, calls[1..]).outcomes[i] == AlreadyCorrelated(AlreadyCorrelatedMessage);
        }
      }
    }
  }

  /** Once correlated, the builder's state never changes again and the only calls it
      makes are those of `finish`, which repeats its ends on every call. */
  lemma {:induction false} AfterCorrelationOnlyFinishEmits(req: Request, s: Session, calls: seq<Call>)
    requires s.state.correlated
    ensures var r := Run(req, s, calls);
            && r.state == s.state
            && r.trace == s.trace + Repeat(FinishEvents(s.state.nested), Finishes(calls))
    decreases |calls|
  {
    if calls != [] {
      var s1 := Perform(req, s, calls[0]);
      AfterCorrelationOnlyFinishEmits(req, s1, calls[1..]);
      var ends := FinishEvents(s.state.nested);
      if calls[0].FinishCall? {
        calc {
          Run(req, s, calls).trace;
          s1.trace + Repeat(ends, Finishes(calls[1..]));
          (s.trace + ends) + Repeat(ends, Finishes(calls[1..]));
          s.trace + (ends + Repeat(ends, Finishes(calls[1..])));
          s.trace + Repeat(ends, Finishes(calls));
        }
      }
    }
  }

  lemma {:induction false} RepeatNothing(n: nat)
    ensures Repeat([], n) == []
  {
    if n > 0 {
      RepeatNothing(n - 1);
    }
  }

  /** A correlated builder holding no nested builder (a plain join was made, or the
      correlation failed) makes no call at all, whatever the compiler calls next:
      `finish` is then a no-op however often it is called. */
  lemma FinishWithoutBuilderIsNoOp(req: Request, s: Session, calls: seq<Call>)
    requires s.state.correlated && s.state.nested == NoBuilder
    ensures Run(req, s, calls).trace == s.trace
  {
    AfterCorrelationOnlyFinishEmits(req, s, calls);
    RepeatNothing(Finishes(calls));
  }

  predicate IsJoin(event: Event) {
    event.LeftJoined? || event.LateralJoined?
  }

  /** The number of joins (plain or lateral) among `events`. */
  function Joins(events: seq<Event>): nat {
    if events == [] then 0 else (if IsJoin(events[0]) then 1 else 0) + Joins(events[1..])
  }

  lemma {:induction false} JoinsOfJoinFree(events: seq<Event>)
    requires forall i :: 0 <= i < |events| ==> !IsJoin(events[i])
    ensures Joins(events) == 0
  {
    if events != [] {
      JoinsOfJoinFree(events[1..]);
    }
  }

  lemma {:induction false} JoinsOfConcat(a: seq<Event>, b: seq<Event>)
    ensures Joins(a + b) == Joins(a) + Joins(b)
  {
    if a == [] {
      assert a + b == b;
    } else {
      assert (a + b)[0] == a[0] && (a + b)[1..] == a[1..] + b;
      JoinsOfConcat(a[1..], b);
    }
  }

  lemma {:induction false} NoJoinsInEnds(nested: NestedBuilder, n: nat)
    ensures Joins(Repeat(FinishEvents(nested), n)) == 0
  {
    if n > 0 {
      NoJoinsInEnds(nested, n - 1);
      JoinsOfConcat(FinishEvents(nested), Repeat(FinishEvents(nested), n - 1));
    }
  }

  /** Whatever the compiler calls, a builder emits at most one join in its life: one
      correlation target is ever bound, and none once it is correlated. */
  lemma {:induction false} AtMostOneJoin(req: Request, s: Session, calls: seq<Call>)
    requires Consistent(s.state, s.trace)
    ensures var r := Run(req, s, calls);
            Joins(r.trace[|s.trace|..]) <= if s.state.correlated then 0 else 1
    decreases |calls|
  {
    var r := Run(req, s, calls);
    if s.state.correlated {
      AfterCorrelationOnlyFinishEmits(req, s, calls);
      assert r.trace[|s.trace|..] == Repeat(FinishEvents(s.state.nested), Finishes(calls));
      NoJoinsInEnds(s.state.nested, Finishes(calls));
    } else if calls != [] {
      var s1 := Perform(req, s, calls[0]);
      assert Consistent(s1.state, s1.trace);
      AtMostOneJoin(req, s1, calls[1..]);
      assert r == Run(req, s1, calls[1..]);
      var first := s1.trace[|s.trace|..];
      assert r.trace[|s.trace|..] == first + r.trace[|s1.trace|..];
      JoinsOfConcat(first, r.trace[|s1.trace|..]);
      if calls[0].CorrelateCall? {
        assert Joins(first) <= 1 by {
          var st := CorrelateStep(req, s.state, calls[0].entity, s.trace);
          assert first == st.trace[|s.trace|..];
          JoinsOfStep(req, s.state, calls[0].entity, s.trace);
        }
      } else {
        assert first == [];
      }
    } else {
      assert r.trace[|s.trace|..] == [];
    }
  }

  /** One `correlate` emits at most one join. */
  lemma JoinsOfStep(req: Request, st: State, entity: EntityRef, trace: seq<Event>)
    ensures var r := CorrelateStep(req, st, entity, trace);
            Joins(r.trace[|trace|..]) <= 1
  {
    var r := CorrelateStep(req, st, entity, trace);
    var emitted := r.trace[|trace|..];
    if |emitted| > 0 {
      JoinsOfJoinFree(emitted[1..]);
    }
  }

  // ---------------------------------------------------------------------------
  // A whole life: correlate, then finish
  // ---------------------------------------------------------------------------

  /** `end` occurs in `trace` after position `h`. */
  ghost predicate EndedAfter(trace: seq<Event>, h: nat, end: Event) {
    exists k :: h < k < |trace| && trace[k] == end
  }

  /** The builder opened at position `h`, if any, is ended later: a lateral builder, or
      an `IN` subquery together with the ON clause of the left join it hangs off. */
  ghost predicate ClosedAt(trace: seq<Event>, h: nat)
    requires h < |trace|
  {
    (trace[h].InSubqueryOpened? ==>
       EndedAfter(trace, h, SubqueryEnded(h)) && EndedAfter(trace, h, JoinOnEnded(trace[h].joinOn))) &&
    (trace[h].LateralJoined? ==> EndedAfter(trace, h, CteEnded(h)))
  }

  /** Every builder opened in `trace` for a correlation is ended later in it. */
  ghost predicate NestedClosed(trace: seq<Event>) {
    forall h :: 0 <= h < |trace| ==> ClosedAt(trace, h)
  }

  predicate Opens(event: Event) {
    event.InSubqueryOpened? || event.LateralJoined?
  }

  /** Builders closed in a trace stay closed when calls are appended to it. */
  lemma ClosedExtends(trace: seq<Event>, longer: seq<Event>)
    requires |trace| <= |longer| && longer[..|trace|] == trace
    requires NestedClosed(trace)
    ensures forall h :: 0 <= h < |trace| ==> ClosedAt(longer, h)
  {
    forall h | 0 <= h < |trace| ensures ClosedAt(longer, h) {
      assert longer[h] == trace[h];
      assert ClosedAt(trace, h);
      forall end | EndedAfter(trace, h, end) ensures EndedAfter(longer, h, end) {
        var k :| h < k < |trace| && trace[k] == end;
        assert longer[k] == trace[k];
      }
    }
  }

  /** No call in `events` opens a builder. */
  predicate OpensNothing(events: seq<Event>) {
    forall i :: 0 <= i < |events| ==> !Opens(events[i])
  }

  /** The calls of any number of `finish`es open nothing. */
  lemma {:induction false} RepeatedEndsOpenNothing(nested: NestedBuilder, n: nat)
    ensures OpensNothing(Repeat(FinishEvents(nested), n))
  {
    if n > 0 {
      var ends := FinishEvents(nested);
      var tail := Repeat(ends, n - 1);
      RepeatedEndsOpenNothing(nested, n - 1);
      var all: seq<Event> := ends + tail;
      assert Repeat(ends, n) == all;
      forall i | 0 <= i < |all| ensures !Opens(all[i]) {
        if i >= |ends| {
          assert all[i] == tail[i - |ends|];
        } else {
          assert all[i] == ends[i];
        }
      }
    }
  }

  /** After a successful `correlate` and the ends of one `finish`, followed by calls that
      open nothing, the builders the `correlate` opened are closed. */
  lemma StepThenEndsClosed(req: Request, st: State, entity: EntityRef, trace: seq<Event>, later: seq<Event>)
    requires !st.correlated && CorrelateStep(req, st, entity, trace).outcome.Ok?
    ensures var step := CorrelateStep(req, st, entity, trace);
            var full := step.trace + FinishEvents(step.state.nested) + later;
            forall h :: |trace| <= h < |step.trace| ==> ClosedAt(full, h)
  {
    var step := CorrelateStep(req, st, entity, trace);
    var full := step.trace + FinishEvents(step.state.nested) + later;
    var m, e := |trace|, |step.trace|;
    forall h | m <= h < e ensures ClosedAt(full, h) {
      if req.limiter.Some? && req.dialect.lateralStyleIsNone {
        if h == m + 1 {
          assert full[e] == SubqueryEnded(h) && full[e + 1] == JoinOnEnded(m);
        } else {
          assert !Opens(full[h]);
        }
      } else if req.limiter.Some? {
        if h == m {
          assert full[e] == CteEnded(h);
        } else {
          assert !Opens(full[h]);
        }
      } else {
        assert !Opens(full[h]);
      }
    }
  }

  /** On a builder whose earlier calls left nothing open, a successful `correlate`
      followed by any calls that include a `finish` leaves nothing open: the subquery
      or lateral builder it opened, and the ON clause under an `IN` subquery, are ended. */
  lemma CorrelateThenFinishClosesNested(req: Request, s: Session, entity: EntityRef, rest: seq<Call>)
    requires !s.state.correlated && Consistent(s.state, s.trace) && NestedClosed(s.trace)
    requires Finishes(rest) > 0
    ensures var r := Run(req, s, [CorrelateCall(entity)] + rest);
            r.outcomes[|s.outcomes|].Ok? ==> NestedClosed(r.trace)
  {
    var calls := [CorrelateCall(entity)] + rest;
    assert calls[0] == CorrelateCall(entity) && calls[1..] == rest;
    var s1 := Perform(req, s, calls[0]);
    var r := Run(req, s1, rest);
    assert Run(req, s, calls) == r;
    var step := CorrelateStep(req, s.state, entity, s.trace);
    assert s1 == Session(step.state, step.trace, s.outcomes + [step.outcome]);
    assert r.outcomes[|s.outcomes|] == s1.outcomes[|s.outcomes|] == step.outcome;
    if step.outcome.Ok? {
      var ends := FinishEvents(step.state.nested);
      var n := Finishes(rest);
      var later := Repeat(ends, n - 1);
      AfterCorrelationOnlyFinishEmits(req, s1, rest);
      assert Repeat(ends, n) == ends + later;
      assert r.trace == step.trace + (ends + later);
      assert r.trace == step.trace + ends + later;
      ClosedExtends(s.trace, r.trace);
      StepThenEndsClosed(req, s.state, entity, s.trace, later);
      RepeatedEndsOpenNothing(step.state.nested, n);
      var e := |step.trace|;
      forall h | e <= h < |r.trace| ensures ClosedAt(r.trace, h) {
        assert r.trace[h] == (ends + later)[h - e];
      }
    }
  }

  /** From a fresh builder: `correlate` then `finish` leaves nothing open when the
      correlation succeeded. */
  lemma FreshCorrelateThenFinishClosesNested(req: Request, entity: EntityRef)
    ensures var r := Run(req, Fresh, [CorrelateCall(entity), FinishCall]);
            r.outcomes[0].Ok? ==> NestedClosed(r.trace)
  {
    assert [CorrelateCall(entity), FinishCall] == [CorrelateCall(entity)] + [FinishCall];
    assert Finishes([FinishCall]) == 1 by {
      assert [FinishCall][1..] == [];
    }
    CorrelateThenFinishClosesNested(req, Fresh, entity, [FinishCall]);
  }

  /** When the limiter raises, the subquery or lateral builder it was handed has been
      opened but is not recorded, so on a builder not yet correlated no later calls, any
      number of `finish`es included, ever end it. */
  lemma LimiterFailureLeavesNestedOpen(req: Request, s: Session, entity: EntityRef, rest: seq<Call>)
    requires req.limiter == Some(Limiter(true))
    requires !req.dialect.lateralStyleIsNone || req.dialect.supportsLimitInQuantifiedPredicateSubquery
    requires !s.state.correlated && Consistent(s.state, s.trace)
    ensures var r := Run(req, s, [CorrelateCall(entity)] + rest);
            r.outcomes[|s.outcomes|] == LimiterFailed && r.trace == CorrelateStep(req, s.state, entity, s.trace).trace
            && !NestedClosed(r.trace)
  {
    var calls := [CorrelateCall(entity)] + rest;
    assert calls[0] == CorrelateCall(entity) && calls[1..] == rest;
    var s1 := Perform(req, s, calls[0]);
    var r := Run(req, s1, rest);
    assert Run(req, s, calls) == r;
    var step := CorrelateStep(req, s.state, entity, s.trace);
    assert s1 == Session(step.state, step.trace, s.outcomes + [step.outcome]);
    assert r.outcomes[|s.outcomes|] == s1.outcomes[|s.outcomes|] == step.outcome;
    assert step.state.nested == NoBuilder;
    AfterCorrelationOnlyFinishEmits(req, s1, rest);
    RepeatNothing(Finishes(rest));
    assert r.trace == step.trace;
    var m := |s.trace|;
    if req.dialect.lateralStyleIsNone {
      var h := m + 1;
      assert r.trace[h].InSubqueryOpened? && |r.trace| == m + 3 && r.trace[m + 2].LimiterApplied?;
      assert !EndedAfter(r.trace, h, SubqueryEnded(h));
      assert !ClosedAt(r.trace, h);
    } else {
      assert r.trace[m].LateralJoined? && |r.trace| == m + 2 && r.trace[m + 1].LimiterApplied?;
      assert !EndedAfter(r.trace, m, CteEnded(m));
      assert !ClosedAt(r.trace, m);
    }
  }

  /** From a fresh builder whose limiter raises: `correlate` then `finish` leaves the
      builder the limiter was handed open. */
  lemma FreshLimiterFailureLeavesNestedOpen(req: Request, entity: EntityRef)
    requires req.limiter == Some(Limiter(true))
    requires !req.dialect.lateralStyleIsNone || req.dialect.supportsLimitInQuantifiedPredicateSubquery
    ensures var r := Run(req, Fresh, [CorrelateCall(entity), FinishCall]);
            r.outcomes == [LimiterFailed] && !NestedClosed(r.trace)
  {
    assert [CorrelateCall(entity), FinishCall] == [CorrelateCall(entity)] + [FinishCall];
    assert Correlations([FinishCall]) == 0 by {
      assert [FinishCall][1..] == [];
    }
    LimiterFailureLeavesNestedOpen(req, Fresh, entity, [FinishCall]);
  }
}
