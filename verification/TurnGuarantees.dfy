/** What the turn protocol guarantees over every run: stopping stops, endings are honest, every
    reserved row is written once, and the page comes to rest. */
module TurnGuarantees {
  import opened Basics
  import opened TurnProtocol
  import opened TurnInvariant

  // ---------------------------------------------------------------- stop means stop

  /** The turns an event stops: those of the conversation still queued, when the stop
      button was pressed, and the one whose controller is registered. */
  predicate Reaches(s: State, e: Event, t: nat)
    requires t < |s.turns|
  {
    match e
    case Stop(c, cancelQueued) =>
      (cancelQueued && t in s.queued && s.turns[t].conv == c) || (c in s.aborts && s.aborts[c] == t)
    case BeginEdit(c, _) => c.saved && c in s.aborts && s.aborts[c] == t
    case _ => false
  }

  /** What an event can do to a turn: it never uncancels it, never asks for a cancelled
      turn, and marks it as hit iff it reaches it. */
  ghost predicate TurnStep(u: Turn, v: Turn, reached: bool) {
    && v.conv == u.conv && v.kind == u.kind
    && (u.cancelled ==> v.cancelled && v.asked == u.asked)
    && u.asked <= v.asked
    && (v.hit <==> u.hit || reached)
  }

  lemma SetSteps(s: State, i: nat, v: Turn, t: nat)
    requires t < |s.turns| && i < |s.turns| && TurnStep(s.turns[i], v, false)
    ensures TurnStep(s.turns[t], s.turns[i := v][t], false)
  {
  }

  lemma StepOfOpen(s: State, i: nat, gate: bool, t: nat)
    requires t < |s.turns| && i < |s.turns| && !s.turns[i].cancelled
    ensures |Open(s, i, gate).turns| == |s.turns|
    ensures TurnStep(s.turns[t], Open(s, i, gate).turns[t], false)
  {
    var u := s.turns[i];
    SetSteps(s, i, u.(phase := Ended(Returned)), t);
    SetSteps(s, i, u.(phase := Streaming, asked := u.asked + 1), t);
  }

  lemma StepOfStart(s: State, i: nat, gate: bool, t: nat)
    requires t < |s.turns|
    ensures |DoStartTask(s, i, gate).turns| == |s.turns|
    ensures TurnStep(s.turns[t], DoStartTask(s, i, gate).turns[t], false)
  {
    if i < |s.turns| && !s.turns[i].cancelled {
      StepOfOpen(s, i, gate, t);
      StepOfOpen(s.(queued := s.queued - {i}), i, gate, t);
    }
  }

  lemma StepOfAnswer(s: State, c: Conv, ok: bool, t: nat)
    requires t < |s.turns|
    ensures |DoHeadAnswer(s, c, ok).turns| == |s.turns|
    ensures TurnStep(s.turns[t], DoHeadAnswer(s, c, ok).turns[t], false)
  {
  }

  lemma StepOfEdit(s: State, c: Conv, gate: bool, t: nat)
    requires t < |s.turns|
    ensures |DoBeginEdit(s, c, gate).turns| >= |s.turns|
    ensures TurnStep(s.turns[t], DoBeginEdit(s, c, gate).turns[t], c.saved && c in s.aborts && s.aborts[c] == t)
  {
    assert c.saved ==> DoBeginEdit(s, c, gate).turns[t] == DoStop(s, c, false).turns[t];
  }

  /** No stop and no request. */
  predicate SameHistory(u: Turn, v: Turn) {
    v.conv == u.conv && v.kind == u.kind && v.cancelled == u.cancelled && v.hit == u.hit && v.asked == u.asked
  }

  lemma SetKeeps(s: State, i: nat, v: Turn, t: nat)
    requires t < |s.turns| && i < |s.turns| && SameHistory(s.turns[i], v)
    ensures SameHistory(s.turns[t], s.turns[i := v][t])
  {
  }

  lemma StepOfResolve(s: State, i: nat, t: nat)
    requires t < |s.turns|
    ensures |DoHeadResolve(s, i).turns| == |s.turns| && SameHistory(s.turns[t], DoHeadResolve(s, i).turns[t])
  {
    if i < |s.turns| { SetKeeps(s, i, s.turns[i].(resolved := true), t); }
  }

  lemma StepOfOver(s: State, i: nat, how: How, t: nat)
    requires t < |s.turns|
    ensures |DoStreamOver(s, i, how).turns| == |s.turns| && SameHistory(s.turns[t], DoStreamOver(s, i, how).turns[t])
  {
    if i < |s.turns| { SetKeeps(s, i, s.turns[i].(phase := Ended(how)), t); }
  }

  lemma StepOfSettle(s: State, i: nat, t: nat)
    requires t < |s.turns|
    ensures |DoSettle(s, i).turns| == |s.turns| && SameHistory(s.turns[t], DoSettle(s, i).turns[t])
  {
    if i < |s.turns| && s.turns[i].phase.Ended? {
      SetKeeps(s, i, s.turns[i].(phase := Settled, final := Some(Verdict(s, s.turns[i]))), t);
    }
  }

  lemma StepOfWrite(s: State, i: nat, t: nat)
    requires t < |s.turns|
    ensures |DoWrite(s, i).turns| == |s.turns| && SameHistory(s.turns[t], DoWrite(s, i).turns[t])
  {
    if i < |s.turns| && s.turns[i].final.Some? {
      var u := s.turns[i];
      SetKeeps(s, i, u.(phase := Written, written := if u.head.Reserved? then u.written + [u.final.value] else u.written), t);
    }
  }

  lemma StepOfFinish(s: State, i: nat, t: nat)
    requires t < |s.turns|
    ensures |DoFinish(s, i).turns| == |s.turns| && SameHistory(s.turns[t], DoFinish(s, i).turns[t])
  {
    if i < |s.turns| { SetKeeps(s, i, s.turns[i].(phase := Gone), t); }
  }

  lemma StepOfTurn(s: State, e: Event, t: nat)
    requires t < |s.turns|
    ensures t < |Apply(s, e).turns| && TurnStep(s.turns[t], Apply(s, e).turns[t], Reaches(s, e, t))
  {
    match e
    case StartTask(i, gate) => StepOfStart(s, i, gate, t);
    case HeadAnswer(c, ok) => StepOfAnswer(s, c, ok, t);
    case BeginEdit(c, gate) => StepOfEdit(s, c, gate, t);
    case HeadResolve(i) => StepOfResolve(s, i, t);
    case StreamOver(i, how) => StepOfOver(s, i, how, t);
    case Settle(i) => StepOfSettle(s, i, t);
    case Write(i) => StepOfWrite(s, i, t);
    case Finish(i) => StepOfFinish(s, i, t);
    case BeginSend(_, _) =>
    case Stop(_, _) =>
  }

  lemma ApplyGrows(s: State, e: Event)
    ensures |s.turns| <= |Apply(s, e).turns|
  {
    if s.turns != [] { StepOfTurn(s, e, |s.turns| - 1); }
  }

  lemma {:induction false} CancelledStays(s: State, t: nat, es: seq<Event>)
    requires t < |s.turns| && s.turns[t].cancelled
    ensures t < |Run(s, es).turns| && Run(s, es).turns[t].asked == s.turns[t].asked
    decreases |es|
  {
    if es != [] {
      StepOfTurn(s, es[0], t);
      CancelledStays(Apply(s, es[0]), t, es[1..]);
    }
  }

  /** Once a turn is registered in `queuedTurnsRef`, the stop button means it issues no
      model request from then on, whatever heads, streams and stops follow. */
  lemma StopMeansNoMoreRequests(before: seq<Event>, t: nat, after: seq<Event>)
    requires t in After(before).queued
    ensures t < |After(before).turns|
    ensures var c := After(before).turns[t].conv;
            var z := After(before + [Stop(c, true)] + after);
            t < |z.turns| && z.turns[t].asked == After(before).turns[t].asked
  {
    InvAfter(before);
    var s := After(before);
    var c := s.turns[t].conv;
    RunAppend(EMPTY, before, [Stop(c, true)]);
    RunAppend(EMPTY, before + [Stop(c, true)], after);
    assert Run(s, [Stop(c, true)]) == Run(Apply(s, Stop(c, true)), []);
    CancelledStays(DoStop(s, c, true), t, after);
  }

  /** A turn that no stop cancelled starts its request when its task runs: the check on
      other records of the conversation never holds it back. */
  lemma UncancelledStarts(es: seq<Event>, t: nat)
    requires var s := After(es);
             && IsFirst(s, t) && s.turns[t].phase.Queued? && s.turns[t].resolved && !s.turns[t].cancelled
             && !s.turns[t].head.Blocked? && !s.turns[t].head.Refused?
    ensures var z := After(es + [StartTask(t, true)]);
            t < |z.turns| && z.turns[t].phase.Streaming? && z.turns[t].asked == 1
  {
    InvAfter(es);
    var s := After(es);
    assert TurnOk(s, t);
    NoneCancelled(s, t);
    RunAppend(EMPTY, es, [StartTask(t, true)]);
    assert Run(s, [StartTask(t, true)]) == Run(Apply(s, StartTask(t, true)), []);
  }

  /** A stop that does not reach a turn does not hold it back: registered after it, or of
      another conversation, the turn issues its request when it is first in its chain. */
  lemma UnreachedStarts(es: seq<Event>, t: nat)
    requires var s := After(es);
             && IsFirst(s, t) && s.turns[t].phase.Queued? && s.turns[t].resolved
             && !s.turns[t].head.Blocked? && !s.turns[t].head.Refused?
    requires forall k | 0 <= k < |es| && t < |After(es[..k]).turns| :: !Reaches(After(es[..k]), es[k], t)
    ensures var z := After(es + [StartTask(t, true)]);
            t < |z.turns| && z.turns[t].phase.Streaming? && z.turns[t].asked == 1
  {
    InvAfter(es);
    HitIsReached(es, t);
    assert TurnOk(After(es), t);
    UncancelledStarts(es, t);
  }

  // ---------------------------------------------------------------- what the gate stops

  /** A model request is issued exactly when the first job of a chain starts with the gate
      open, for a turn that no stop cancelled and whose head was not blocked or refused. */
  lemma AsksIff(s: State, e: Event, t: nat)
    requires Inv(s) && t < |s.turns|
    ensures t < |Apply(s, e).turns|
    ensures Apply(s, e).turns[t].asked ==
              s.turns[t].asked +
              if e == StartTask(t, true) && IsFirst(s, t) && s.turns[t].phase.Queued? && s.turns[t].resolved
                 && !s.turns[t].cancelled && !s.turns[t].head.Blocked? && !s.turns[t].head.Refused?
              then 1 else 0
  {
    match e
    case StartTask(i, gate) =>
      if i != t { StartKeepsOthers(s, i, gate, t); }
      else if IsFirst(s, t) && s.turns[t].phase.Queued? && s.turns[t].resolved { StartIs(s, t, gate); }
    case HeadAnswer(c, ok) => AnswerKeepsAsked(s, c, ok, t);
    case HeadResolve(i) => StepOfResolve(s, i, t);
    case StreamOver(i, how) => StepOfOver(s, i, how, t);
    case Settle(i) => StepOfSettle(s, i, t);
    case Write(i) => StepOfWrite(s, i, t);
    case Finish(i) => StepOfFinish(s, i, t);
    case BeginEdit(c, gate) => EditKeepsAsked(s, c, gate, t);
    case BeginSend(_, _) =>
    case Stop(_, _) =>
  }

  lemma EditKeepsAsked(s: State, c: Conv, gate: bool, t: nat)
    requires t < |s.turns|
    ensures t < |DoBeginEdit(s, c, gate).turns| && DoBeginEdit(s, c, gate).turns[t].asked == s.turns[t].asked
  {
    var stopped := DoStop(s, c, false);
    assert |stopped.turns| == |s.turns| && stopped.turns[t].asked == s.turns[t].asked;
  }

  lemma AnswerKeepsAsked(s: State, c: Conv, ok: bool, t: nat)
    requires Inv(s) && t < |s.turns|
    ensures |DoHeadAnswer(s, c, ok).turns| == |s.turns| && DoHeadAnswer(s, c, ok).turns[t].asked == s.turns[t].asked
  {
    if Chain(s.heads, c) != [] {
      assert HeadsOk(s, c);
      AnswerSets(s, c, ok);
    }
  }

  /** What beginning a turn does: the message of a saved conversation goes to the server only
      through the gate, and a blocked edit adds nothing. */
  lemma GateOnStorage(s: State, c: Conv, gate: bool)
    ensures var z := Apply(s, BeginSend(c, gate));
            && |z.turns| == |s.turns| + 1 && z.turns[|s.turns|].conv == c
            && (|s.turns| in Chain(z.heads, c) <==> |s.turns| in Chain(s.heads, c) || (c.saved && gate))
            && (z.turns[|s.turns|].head.Waiting? <==> c.saved && gate)
    ensures var z := Apply(s, BeginEdit(c, gate));
            |z.turns| == |s.turns| + if c.saved && gate then 1 else 0
  {
    assert |DoStop(s, c, false).turns| == |s.turns|;
  }

  // ---------------------------------------------------------------- honest endings

  /** A settled turn is finalised as stopped exactly when a stop reached it.  So a turn
      stopped before its stream ended is never finalised as complete or failed, and a stop
      aimed at other turns never marks this one. */
  lemma StoppedIffHit(es: seq<Event>, t: nat)
    requires t < |After(es).turns| && After(es).turns[t].final.Some?
    ensures After(es).turns[t].final.value.Stopped? <==> After(es).turns[t].hit
  {
    InvAfter(es);
    assert TurnOk(After(es), t);
  }

  /** `hit` is what it says: some event of the run reached the turn. */
  lemma {:induction false} HitIsReached(es: seq<Event>, t: nat)
    requires t < |After(es).turns|
    ensures After(es).turns[t].hit <==>
              exists k :: 0 <= k < |es| && t < |After(es[..k]).turns| && Reaches(After(es[..k]), es[k], t)
    decreases |es|
  {
    if es != [] {
      var n := |es| - 1;
      var s := After(es[..n]);
      assert es == es[..n] + [es[n]];
      RunAppend(EMPTY, es[..n], [es[n]]);
      assert Run(s, [es[n]]) == Run(Apply(s, es[n]), []);
      assert forall k | 0 <= k < n :: es[..n][..k] == es[..k];
      if t < |s.turns| {
        StepOfTurn(s, es[n], t);
        HitIsReached(es[..n], t);
      } else {
        BornUnhit(s, es[n], t);
        forall k | 0 <= k < |es|
          ensures t >= |After(es[..k]).turns|
        {
          TurnsGrow(es, k, n);
        }
      }
    }
  }

  /** Only a send and an edit add a turn. */
  lemma SameNumber(s: State, e: Event)
    requires !e.BeginSend? && !e.BeginEdit?
    ensures |Apply(s, e).turns| == |s.turns|
  {
    match e
    case HeadAnswer(c, ok) =>
    case HeadResolve(_) =>
    case StartTask(t, gate) =>
    case StreamOver(_, _) =>
    case Settle(_) =>
    case Write(_) =>
    case Finish(_) =>
    case Stop(_, _) =>
  }

  lemma BornUnhit(s: State, e: Event, t: nat)
    requires |s.turns| <= t < |Apply(s, e).turns|
    ensures !Apply(s, e).turns[t].hit && !Apply(s, e).turns[t].cancelled
  {
    if e.BeginEdit? {
      assert |DoStop(s, e.conv, false).turns| == |s.turns|;
    } else if !e.BeginSend? {
      SameNumber(s, e);
    }
  }

  lemma {:induction false} TurnsGrow(es: seq<Event>, i: nat, j: nat)
    requires i <= j <= |es|
    ensures |After(es[..i]).turns| <= |After(es[..j]).turns|
    decreases j - i
  {
    if i < j {
      TurnsGrow(es, i, j - 1);
      var s := After(es[..j - 1]);
      assert es[..j] == es[..j - 1] + [es[j - 1]];
      ApplyGrows(s, es[j - 1]);
      RunAppend(EMPTY, es[..j - 1], [es[j - 1]]);
      assert Run(s, [es[j - 1]]) == Run(Apply(s, es[j - 1]), []);
    }
  }

  /** A stream that ran to its end: it returned, or it ran out of its length budget. */
  predicate EndedWell(how: How) {
    how.Returned? || how.lengthBudget
  }

  /** What a finished stream is recorded as: stopped if a stop reached its turn, complete if it
      ran to its end, failed if it threw. */
  lemma SettledAs(s: State, t: nat)
    requires Inv(s) && t < |s.turns| && s.turns[t].phase.Ended?
    ensures var u := s.turns[t];
            var z := Apply(s, Settle(t));
            && |z.turns| == |s.turns| && z.turns[t].phase.Settled? && z.turns[t].hit == u.hit
            && z.turns[t].final == Some(if u.hit then Stopped else if EndedWell(u.phase.how) then Complete else Failed)
  {
    assert TurnOk(s, t);
  }

  /** The event ends the stream of the turn, well. */
  ghost predicate EndsWell(s: State, e: Event, t: nat) {
    && t < |s.turns| && t < |Apply(s, e).turns|
    && !s.turns[t].phase.Ended? && Apply(s, e).turns[t].phase.Ended? && EndedWell(Apply(s, e).turns[t].phase.how)
  }

  /** A stream ends when it returns or throws, or when the gate refuses to start it: that
      counts as returning, though nothing was asked. */
  lemma StreamEndsHow(s: State, e: Event, t: nat)
    requires Inv(s) && t < |s.turns| && !s.turns[t].phase.Ended?
    requires t < |Apply(s, e).turns| && Apply(s, e).turns[t].phase.Ended?
    ensures var how := Apply(s, e).turns[t].phase.how;
            || (e == StreamOver(t, how) && s.turns[t].phase.Streaming?)
            || (e == StartTask(t, false) && s.turns[t].phase.Queued? && how.Returned?)
  {
    EventOfTurn(s, e, t);
    if e.StartTask? && e.t == t && IsFirst(s, t) && s.turns[t].phase.Queued? && s.turns[t].resolved {
      StartIs(s, t, e.gate);
    }
  }

  /** The events of another turn leave a turn alone. */
  lemma OthersEvent(s: State, e: Event, t: nat)
    requires t < |s.turns| && Internal(e) && !e.HeadAnswer? && e.t != t
    ensures |Apply(s, e).turns| == |s.turns| && Apply(s, e).turns[t] == s.turns[t]
  {
    match e
    case StartTask(i, gate) => StartKeepsOthers(s, i, gate, t);
    case HeadResolve(i) => WorkKeepsOthers(s, i, Returned, t);
    case StreamOver(i, how) => WorkKeepsOthers(s, i, how, t);
    case Settle(i) => SettleKeepsOthers(s, i, t);
    case Write(i) => EndKeepsOthers(s, i, t);
    case Finish(i) => EndKeepsOthers(s, i, t);
  }

  /** Only its own events move a turn; the answer to its head lets an edit join or leave. */
  lemma EventOfTurn(s: State, e: Event, t: nat)
    requires Inv(s) && t < |s.turns|
    ensures t < |Apply(s, e).turns|
    ensures var u, v := s.turns[t], Apply(s, e).turns[t];
            || (v.phase == u.phase && v.final == u.final)
            || (e.HeadAnswer? && v.final == u.final && u.phase.HeadOnly? && (v.phase.Queued? || v.phase.Gone?))
            || (!e.HeadAnswer? && Internal(e) && e.t == t)
  {
    match e
    case BeginSend(c, gate) => assert Apply(s, e).turns == s.turns + [Apply(s, e).turns[|s.turns|]];
    case BeginEdit(c, gate) => EditKeepsPhase(s, c, gate, t);
    case Stop(c, cancelQueued) => StopKeepsPhase(s, c, cancelQueued, t);
    case HeadAnswer(c, ok) => AnswerKeepsPhase(s, c, ok, t);
    case _ => if e.t != t { OthersEvent(s, e, t); } else { SameNumber(s, e); }
  }

  lemma StopKeepsPhase(s: State, c: Conv, cancelQueued: bool, t: nat)
    requires t < |s.turns|
    ensures var z := DoStop(s, c, cancelQueued);
            |z.turns| == |s.turns| && z.turns[t].phase == s.turns[t].phase && z.turns[t].final == s.turns[t].final
  {
  }

  lemma WorkKeepsOthers(s: State, i: nat, how: How, t: nat)
    requires t < |s.turns| && i != t
    ensures |DoHeadResolve(s, i).turns| == |s.turns| && DoHeadResolve(s, i).turns[t] == s.turns[t]
    ensures |DoStreamOver(s, i, how).turns| == |s.turns| && DoStreamOver(s, i, how).turns[t] == s.turns[t]
  {
  }

  lemma EndKeepsOthers(s: State, i: nat, t: nat)
    requires t < |s.turns| && i != t
    ensures |DoWrite(s, i).turns| == |s.turns| && DoWrite(s, i).turns[t] == s.turns[t]
    ensures |DoFinish(s, i).turns| == |s.turns| && DoFinish(s, i).turns[t] == s.turns[t]
  {
  }

  lemma EditKeepsPhase(s: State, c: Conv, gate: bool, t: nat)
    requires t < |s.turns|
    ensures t < |DoBeginEdit(s, c, gate).turns|
    ensures var u, v := s.turns[t], DoBeginEdit(s, c, gate).turns[t]; v.phase == u.phase && v.final == u.final
  {
    StopKeepsPhase(s, c, false, t);
  }

  lemma StartKeepsOthers(s: State, i: nat, gate: bool, t: nat)
    requires t < |s.turns| && i != t
    ensures |DoStartTask(s, i, gate).turns| == |s.turns| && DoStartTask(s, i, gate).turns[t] == s.turns[t]
  {
    if IsFirst(s, i) && s.turns[i].phase.Queued? && s.turns[i].resolved { StartMoves(s, i, gate); }
  }

  lemma SettleKeepsOthers(s: State, i: nat, t: nat)
    requires t < |s.turns| && i != t
    ensures |DoSettle(s, i).turns| == |s.turns| && DoSettle(s, i).turns[t] == s.turns[t]
  {
    if i < |s.turns| && s.turns[i].phase.Ended? { SettleMoves(s, i); }
  }

  lemma AnswerKeepsPhase(s: State, c: Conv, ok: bool, t: nat)
    requires Inv(s) && t < |s.turns|
    ensures |DoHeadAnswer(s, c, ok).turns| == |s.turns|
    ensures var u, v := s.turns[t], DoHeadAnswer(s, c, ok).turns[t];
            && v.final == u.final && v.hit == u.hit
            && (v.phase == u.phase || (u.phase.HeadOnly? && (v.phase.Queued? || v.phase.Gone?)))
  {
    if Chain(s.heads, c) != [] {
      assert HeadsOk(s, c) && TurnOk(s, s.heads[c][0]);
      AnswerSets(s, c, ok);
    }
  }

  /** What is known of a turn at each phase: whether its stream has ended well, and, once it
      is over, what that makes it. */
  ghost predicate FateOk(u: Turn, well: bool) {
    && (u.phase.HeadOnly? || u.phase.Queued? || u.phase.Streaming? ==> !well && u.final.None?)
    && (u.phase.Ended? ==> (well <==> EndedWell(u.phase.how)) && u.final.None?)
    && (u.phase.Settled? ==> u.final.Some?)
    && (u.final.None? && (u.phase.Written? || u.phase.Gone?) ==> !well)
    && (u.final.Some? ==> u.final.value == if u.hit then Stopped else if well then Complete else Failed)
  }

  /** No stop reaches a turn that is over. */
  lemma OverIsUnreached(s: State, e: Event, t: nat)
    requires Inv(s) && t < |s.turns| && s.turns[t].final.Some?
    ensures !Reaches(s, e, t)
  {
    assert TurnOk(s, t) && FlagsOk(s, s.turns[t].conv);
    if e.Stop? || e.BeginEdit? { assert FlagsOk(s, e.conv) && TasksOk(s, e.conv); }
  }

  lemma OwnFate(s: State, e: Event, t: nat, well: bool)
    requires Inv(s) && t < |s.turns| && FateOk(s.turns[t], well) && Internal(e) && !e.HeadAnswer? && e.t == t
    ensures t < |Apply(s, e).turns| && FateOk(Apply(s, e).turns[t], well || EndsWell(s, e, t))
  {
    assert TurnOk(s, t);
    match e
    case StartTask(_, gate) => StartFate(s, t, gate, well);
    case Settle(_) => if s.turns[t].phase.Ended? { SettledAs(s, t); }
    case HeadResolve(_) => ResolveFate(s, t, well);
    case StreamOver(_, how) => OverFate(s, t, how, well);
    case Write(_) => WriteFate(s, t, well);
    case Finish(_) => FinishFate(s, t, well);
  }

  lemma ResolveFate(s: State, t: nat, well: bool)
    requires t < |s.turns| && FateOk(s.turns[t], well)
    ensures t < |DoHeadResolve(s, t).turns|
    ensures FateOk(DoHeadResolve(s, t).turns[t], well || EndsWell(s, HeadResolve(t), t))
  {
  }

  lemma WriteFate(s: State, t: nat, well: bool)
    requires t < |s.turns| && FateOk(s.turns[t], well)
    ensures t < |DoWrite(s, t).turns| && FateOk(DoWrite(s, t).turns[t], well || EndsWell(s, Write(t), t))
  {
  }

  lemma FinishFate(s: State, t: nat, well: bool)
    requires t < |s.turns| && FateOk(s.turns[t], well)
    ensures t < |DoFinish(s, t).turns| && FateOk(DoFinish(s, t).turns[t], well || EndsWell(s, Finish(t), t))
  {
  }

  lemma OverFate(s: State, t: nat, how: How, well: bool)
    requires t < |s.turns| && FateOk(s.turns[t], well)
    ensures t < |DoStreamOver(s, t, how).turns|
    ensures FateOk(DoStreamOver(s, t, how).turns[t], well || EndsWell(s, StreamOver(t, how), t))
  {
  }

  /** The turn after the start of its job. */
  lemma StartIs(s: State, t: nat, gate: bool)
    requires Inv(s) && IsFirst(s, t) && s.turns[t].phase.Queued? && s.turns[t].resolved
    ensures |DoStartTask(s, t, gate).turns| == |s.turns|
    ensures var u, v := s.turns[t], DoStartTask(s, t, gate).turns[t];
            v == if u.cancelled then u.(phase := Settled, final := Some(Stopped))
                 else if u.head.Blocked? || u.head.Refused? then u.(phase := Written)
                 else if gate then u.(phase := Streaming, asked := u.asked + 1)
                 else u.(phase := Ended(Returned))
  {
    assert TurnOk(s, t);
    if !s.turns[t].cancelled { NoneCancelled(s, t); }
  }

  lemma StartFate(s: State, t: nat, gate: bool, well: bool)
    requires Inv(s) && t < |s.turns| && FateOk(s.turns[t], well)
    ensures t < |DoStartTask(s, t, gate).turns|
    ensures FateOk(DoStartTask(s, t, gate).turns[t], well || EndsWell(s, StartTask(t, gate), t))
  {
    assert TurnOk(s, t);
    if IsFirst(s, t) && s.turns[t].phase.Queued? && s.turns[t].resolved { StartIs(s, t, gate); }
  }

  lemma FateStep(s: State, e: Event, t: nat, well: bool)
    requires Inv(s) && t < |s.turns| && FateOk(s.turns[t], well)
    ensures t < |Apply(s, e).turns| && FateOk(Apply(s, e).turns[t], well || EndsWell(s, e, t))
  {
    if !e.HeadAnswer? && Internal(e) && e.t == t {
      OwnFate(s, e, t, well);
    } else {
      EventOfTurn(s, e, t);
      StepOfTurn(s, e, t);
      if s.turns[t].final.Some? { OverIsUnreached(s, e, t); }
    }
  }

  /** Some event of the run ended the stream of the turn, well. */
  ghost predicate EndedWellIn(es: seq<Event>, t: nat) {
    exists k :: 0 <= k < |es| && EndsWell(After(es[..k]), es[k], t)
  }

  lemma {:induction false} FateOfTurn(es: seq<Event>, t: nat)
    requires t < |After(es).turns|
    ensures FateOk(After(es).turns[t], EndedWellIn(es, t))
    decreases |es|
  {
    if es != [] {
      var n := |es| - 1;
      var s := After(es[..n]);
      assert es == es[..n] + [es[n]];
      RunAppend(EMPTY, es[..n], [es[n]]);
      assert Run(s, [es[n]]) == Run(Apply(s, es[n]), []);
      assert forall k | 0 <= k < n :: es[..n][..k] == es[..k];
      InvAfter(es[..n]);
      if t < |s.turns| {
        FateOfTurn(es[..n], t);
        FateStep(s, es[n], t, EndedWellIn(es[..n], t));
        assert EndedWellIn(es, t) <==> EndedWellIn(es[..n], t) || EndsWell(s, es[n], t);
      } else {
        BornFresh(s, es[n], t);
        forall k | 0 <= k < |es|
          ensures !EndsWell(After(es[..k]), es[k], t)
        {
          TurnsGrow(es, k, n);
        }
      }
    }
  }

  lemma BornFresh(s: State, e: Event, t: nat)
    requires |s.turns| <= t < |Apply(s, e).turns|
    ensures FateOk(Apply(s, e).turns[t], false)
  {
    if e.BeginEdit? {
      assert |DoStop(s, e.conv, false).turns| == |s.turns|;
    } else if !e.BeginSend? {
      SameNumber(s, e);
    }
  }

  /** The one final write of a reserved row: stopped iff an event of the run reached its turn;
      otherwise complete iff its stream ended well in the run, and failed if not. */
  lemma WhatIsWritten(es: seq<Event>, t: nat)
    requires t < |After(es).turns| && After(es).turns[t].written != []
    ensures var reached := exists k :: 0 <= k < |es| && t < |After(es[..k]).turns| && Reaches(After(es[..k]), es[k], t);
            After(es).turns[t].written ==
              [if reached then Stopped else if EndedWellIn(es, t) then Complete else Failed]
  {
    InvAfter(es);
    assert TurnOk(After(es), t);
    FateOfTurn(es, t);
    HitIsReached(es, t);
  }

  /** Every reserved row has no final write until its turn is over, and exactly one from
      then on, with the state the turn settled in; no two turns share a row. */
  lemma OneFinalWrite(es: seq<Event>, t: nat)
    requires t < |After(es).turns| && After(es).turns[t].head.Reserved?
    ensures var u := After(es).turns[t];
            if u.phase.Written? || u.phase.Gone? then u.final.Some? && u.written == [u.final.value] else u.written == []
    ensures forall v | 0 <= v < |After(es).turns| && v != t && After(es).turns[v].head.Reserved? ::
              After(es).turns[v].head.row != After(es).turns[t].head.row
  {
    InvAfter(es);
    assert TurnOk(After(es), t);
  }

  /** The model picker is locked iff some turn with a reserved row has not settled. */
  lemma LockedIff(es: seq<Event>)
    ensures After(es).locked <==>
              exists t :: 0 <= t < |After(es).turns| && After(es).turns[t].head.Reserved? && Live(After(es).turns[t].phase)
  {
    InvAfter(es);
    var s := After(es);
    if s.locked {
      var t :| t in s.inFlight;
      assert TurnOk(s, t);
    }
    if t :| 0 <= t < |s.turns| && s.turns[t].head.Reserved? && Live(s.turns[t].phase) {
      assert TurnOk(s, t);
    }
  }

  /** Within a conversation the server stores turns in the order they were begun, and at
      most one turn streams at a time. */
  lemma OrderWithinConversation(es: seq<Event>, t: nat, v: nat)
    requires t < v < |After(es).turns| && After(es).turns[t].conv == After(es).turns[v].conv
    ensures var s := After(es);
            && (s.turns[t].head.Reserved? && s.turns[v].head.Reserved? ==> s.turns[t].head.row < s.turns[v].head.row)
            && (s.turns[v].head.Reserved? ==> !s.turns[t].head.Waiting?)
            && !(s.turns[t].phase.Streaming? && s.turns[v].phase.Streaming?)
  {
    InvAfter(es);
    var s := After(es);
    if s.turns[t].phase.Streaming? {
      StreamIsFirst(s, t);
      NotFirst(s, t, v);
    }
  }

  // ---------------------------------------------------------------- nothing gets stuck

  predicate Internal(e: Event) {
    !e.BeginSend? && !e.BeginEdit? && !e.Stop?
  }

  lemma QueuedCanMove(s: State, t: nat) returns (e: Event)
    requires Inv(s) && IsFirst(s, t) && s.turns[t].phase.Queued?
    ensures Internal(e) && Apply(s, e) != s
  {
    var u := s.turns[t];
    assert TurnOk(s, t) && HeadsOk(s, u.conv);
    if u.resolved {
      e := StartTask(t, true);
      if !u.cancelled { NoneCancelled(s, t); }
      assert Apply(s, e).turns[t].phase != u.phase;
    } else if u.head.Waiting? {
      e := HeadAnswer(u.conv, false);
      assert |Chain(Apply(s, e).heads, u.conv)| < |Chain(s.heads, u.conv)|;
    } else {
      e := HeadResolve(t);
      assert Apply(s, e).turns[t].resolved;
    }
  }

  lemma WorkCanMove(s: State, t: nat) returns (e: Event)
    requires IsFirst(s, t) && OnChain(s.turns[t].phase) && !s.turns[t].phase.Queued?
    requires s.turns[t].phase.Settled? ==> s.turns[t].final.Some?
    ensures Internal(e) && |Apply(s, e).turns| == |s.turns| && Apply(s, e).turns[t].phase != s.turns[t].phase
  {
    match s.turns[t].phase {
      case Streaming => e := StreamOver(t, Returned);
      case Ended(_) => e := Settle(t);
      case Settled => e := Write(t);
      case Written => e := Finish(t);
    }
  }

  /** Some event changes the state of every chain that is not empty. */
  lemma ChainCanMove(s: State, c: Conv) returns (e: Event)
    requires Inv(s) && Chain(s.tasks, c) != []
    ensures Internal(e) && Apply(s, e) != s
  {
    assert TasksOk(s, c);
    var t := Chain(s.tasks, c)[0];
    assert TurnOk(s, t);
    if s.turns[t].phase.Queued? { e := QueuedCanMove(s, t); } else { e := WorkCanMove(s, t); }
  }

  /** Nothing more can happen by itself. */
  ghost predicate AtRest(s: State) {
    forall e | Internal(e) :: Apply(s, e) == s
  }

  /** When nothing more can happen by itself, no chain holds a turn, nothing is in flight
      and the picker is unlocked. */
  lemma QuietMeansUnlocked(es: seq<Event>)
    requires AtRest(After(es))
    ensures !After(es).locked && After(es).inFlight == {}
    ensures forall c :: Chain(After(es).tasks, c) == []
  {
    InvAfter(es);
    var s := After(es);
    forall c
      ensures Chain(s.tasks, c) == []
    {
      if Chain(s.tasks, c) != [] {
        var e := ChainCanMove(s, c);
        assert false;
      }
    }
    forall t | 0 <= t < |s.turns|
      ensures t !in s.inFlight
    {
      assert TurnOk(s, t) && TasksOk(s, s.turns[t].conv);
    }
    assert s.inFlight == {};
  }

  /** Then every reserved row has exactly one final write, stopped iff a stop reached its turn. */
  lemma QuietMeansWritten(es: seq<Event>, t: nat)
    requires AtRest(After(es))
    requires t < |After(es).turns| && After(es).turns[t].head.Reserved?
    ensures var u := After(es).turns[t];
            u.final.Some? && u.written == [u.final.value] && (u.final.value.Stopped? <==> u.hit)
  {
    QuietMeansUnlocked(es);
    InvAfter(es);
    var s := After(es);
    assert TurnOk(s, t) && TasksOk(s, s.turns[t].conv);
  }

  // ---------------------------------------------------------------- coming to rest

  /** How far a turn is from its end. */
  function Rank(u: Turn): nat {
    (match u.phase
     case HeadOnly => 6
     case Queued => 5
     case Streaming => 4
     case Ended(_) => 3
     case Settled => 2
     case Written => 1
     case Gone => 0)
    + (if u.head.Waiting? then 1 else 0) + (if u.resolved then 0 else 1)
  }

  function Total(turns: seq<Turn>): nat {
    if turns == [] then 0 else Rank(turns[0]) + Total(turns[1..])
  }

  lemma {:induction false} TotalSet(turns: seq<Turn>, i: nat, v: Turn)
    requires i < |turns|
    ensures Total(turns[i := v]) + Rank(turns[i]) == Total(turns) + Rank(v)
  {
    if i > 0 {
      assert turns[i := v][1..] == turns[1..][i - 1 := v];
      TotalSet(turns[1..], i - 1, v);
    } else {
      assert turns[0 := v][1..] == turns[1..];
    }
  }

  /** Turn `i` alone moves, towards its end; a reserved row stays its own. */
  ghost predicate Moves(turns: seq<Turn>, later: seq<Turn>, i: nat) {
    && i < |turns| && |later| == |turns| && later == turns[i := later[i]] && Rank(later[i]) < Rank(turns[i])
    && (turns[i].head.Reserved? ==> later[i].head == turns[i].head)
  }

  lemma SetMoves(turns: seq<Turn>, i: nat, v: Turn)
    requires i < |turns| && Rank(v) < Rank(turns[i])
    requires turns[i].head.Reserved? ==> v.head == turns[i].head
    ensures Moves(turns, turns[i := v], i)
  {
  }

  lemma AnsweredRank(u: Turn, ok: bool, rows: nat)
    requires u.head.Waiting? && !u.resolved && if u.kind.Send? then u.phase.Queued? else u.phase.HeadOnly?
    ensures Rank(AnsweredTurn(u, ok, rows)) < Rank(u)
  {
  }

  lemma AnswerMoves(s: State, c: Conv, ok: bool)
    requires Inv(s) && Chain(s.heads, c) != []
    ensures Moves(s.turns, DoHeadAnswer(s, c, ok).turns, s.heads[c][0])
  {
    assert HeadsOk(s, c) && TurnOk(s, s.heads[c][0]);
    AnsweredRank(s.turns[s.heads[c][0]], ok, s.rows);
    AnswerSets(s, c, ok);
    SetMoves(s.turns, s.heads[c][0], AnsweredTurn(s.turns[s.heads[c][0]], ok, s.rows));
  }

  lemma StartMoves(s: State, t: nat, gate: bool)
    requires IsFirst(s, t) && s.turns[t].phase.Queued? && s.turns[t].resolved
    ensures Moves(s.turns, DoStartTask(s, t, gate).turns, t)
  {
    if !s.turns[t].cancelled {
      OpenMoves(s, t, gate);
      OpenMoves(s.(queued := s.queued - {t}), t, gate);
    }
  }

  lemma OpenMoves(s: State, t: nat, gate: bool)
    requires t < |s.turns| && s.turns[t].phase.Queued?
    ensures Moves(s.turns, Open(s, t, gate).turns, t)
  {
    var u := s.turns[t];
    SetMoves(s.turns, t, u.(phase := Streaming, asked := u.asked + 1));
    SetMoves(s.turns, t, u.(phase := Ended(Returned)));
    assert Open(s, t, gate).turns == s.turns[t := u.(phase := Streaming, asked := u.asked + 1)]
        || Open(s, t, gate).turns == s.turns[t := u.(phase := Ended(Returned))];
  }

  lemma ResolvedStays(s: State, t: nat)
    requires t < |s.turns| && s.turns[t].resolved
    ensures DoHeadResolve(s, t) == s
  {
    assert s.turns[t := s.turns[t]] == s.turns;
  }

  lemma WorkMoves(s: State, e: Event)
    requires Internal(e) && !e.HeadAnswer? && !e.StartTask? && Apply(s, e) != s
    ensures Moves(s.turns, Apply(s, e).turns, e.t)
  {
    match e
    case HeadResolve(t) => if t < |s.turns| && s.turns[t].resolved { ResolvedStays(s, t); }
    case StreamOver(t, how) =>
    case Settle(t) => SettleMoves(s, t);
    case Write(t) =>
    case Finish(t) =>
  }

  lemma SettleMoves(s: State, t: nat)
    requires t < |s.turns| && s.turns[t].phase.Ended?
    ensures Moves(s.turns, DoSettle(s, t).turns, t)
  {
    assert DoSettle(s, t).turns == s.turns[t := s.turns[t].(phase := Settled, final := Some(Verdict(s, s.turns[t])))];
  }

  /** Every event that happens by itself and changes anything moves one turn. */
  lemma InternalMoves(s: State, e: Event) returns (i: nat)
    requires Inv(s) && Internal(e) && Apply(s, e) != s
    ensures Moves(s.turns, Apply(s, e).turns, i) && Total(Apply(s, e).turns) < Total(s.turns)
  {
    match e {
      case HeadAnswer(c, ok) =>
        AnswerMoves(s, c, ok);
        i := s.heads[c][0];
      case StartTask(t, gate) =>
        StartMoves(s, t, gate);
        i := t;
      case HeadResolve(t) => i := t;
      case StreamOver(t, _) => i := t;
      case Settle(t) => i := t;
      case Write(t) => i := t;
      case Finish(t) => i := t;
    }
    if !e.HeadAnswer? && !e.StartTask? { WorkMoves(s, e); }
    TotalSet(s.turns, i, Apply(s, e).turns[i]);
  }

  /** The events that happen by themselves, each changing something. */
  ghost predicate Busy(s: State, es: seq<Event>)
    decreases |es|
  {
    es == [] || (Internal(es[0]) && Apply(s, es[0]) != s && Busy(Apply(s, es[0]), es[1..]))
  }

  /** Without the user a page is busy for a bounded number of events only. */
  lemma {:induction false} BusyIsBounded(s: State, es: seq<Event>)
    requires Inv(s) && Busy(s, es)
    ensures |es| <= Total(s.turns)
    decreases |es|
  {
    if es != [] {
      var i := InternalMoves(s, es[0]);
      InvApply(s, es[0]);
      BusyIsBounded(Apply(s, es[0]), es[1..]);
    }
  }

  ghost predicate RowsStay(s: State, z: State) {
    && |z.turns| == |s.turns|
    && forall t | 0 <= t < |s.turns| && s.turns[t].head.Reserved? :: z.turns[t].head == s.turns[t].head
  }

  /** From every state some events that happen by themselves bring the page to rest; reserved
      rows stay with their turns. */
  lemma {:induction false} ComesToRest(s: State) returns (es: seq<Event>)
    requires Inv(s)
    ensures Busy(s, es) && AtRest(Run(s, es)) && RowsStay(s, Run(s, es))
    decreases Total(s.turns)
  {
    if AtRest(s) {
      es := [];
    } else {
      var e :| Internal(e) && Apply(s, e) != s;
      var i := InternalMoves(s, e);
      InvApply(s, e);
      var rest := ComesToRest(Apply(s, e));
      es := [e] + rest;
      assert es[1..] == rest;
    }
  }

  /** A busy run that cannot be continued has come to rest. */
  lemma StuckIsAtRest(s: State, es: seq<Event>)
    requires Busy(s, es) && forall e :: !Busy(s, es + [e])
    ensures AtRest(Run(s, es))
  {
    forall e | Internal(e)
      ensures Apply(Run(s, es), e) == Run(s, es)
    {
      if Apply(Run(s, es), e) != Run(s, es) { BusyMore(s, es, e); }
    }
  }

  lemma {:induction false} BusyMore(s: State, es: seq<Event>, e: Event)
    requires Busy(s, es) && Internal(e) && Apply(Run(s, es), e) != Run(s, es)
    ensures Busy(s, es + [e])
    decreases |es|
  {
    if es == [] {
      assert es + [e] == [e];
    } else {
      assert (es + [e])[1..] == es[1..] + [e];
      BusyMore(Apply(s, es[0]), es[1..], e);
    }
  }

  /** So after every run the page can come to rest by itself, and when it does, every reserved
      row has exactly one final write. */
  lemma EveryRowIsWritten(es: seq<Event>) returns (more: seq<Event>)
    ensures Busy(After(es), more) && AtRest(After(es + more))
    ensures forall t | 0 <= t < |After(es).turns| && After(es).turns[t].head.Reserved? ::
              && t < |After(es + more).turns|
              && var u := After(es + more).turns[t];
                 u.head == After(es).turns[t].head && u.final.Some? && u.written == [u.final.value]
  {
    InvAfter(es);
    more := ComesToRest(After(es));
    RunAppend(EMPTY, es, more);
    forall t | 0 <= t < |After(es).turns| && After(es).turns[t].head.Reserved?
      ensures t < |After(es + more).turns|
      ensures var u := After(es + more).turns[t];
              u.head == After(es).turns[t].head && u.final.Some? && u.written == [u.final.value]
    {
      QuietMeansWritten(es + more, t);
    }
  }
}
