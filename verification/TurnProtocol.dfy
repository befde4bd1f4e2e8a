/** Sending, editing and stopping turns in the chat shell (`apps/anila-shell/src/app.jsx`).

    A turn first has its user message stored and an assistant row reserved (the head), in
    order within its conversation; then it streams, again one at a time within its
    conversation; then its row gets a final write.  An event is the code between two
    awaits, a key press, or an answer from outside, so a run is a sequence of events.  An
    event that is not enabled leaves the state alone. */
module TurnProtocol {
  import opened Basics

  /** `saved` is `typeof convId === "number"`: only then can anything be stored. */
  datatype Conv = Conv(id: nat, saved: bool)

  datatype Kind = Send | Edit

  datatype Head = NoHead | Waiting | Blocked | Refused | Reserved(row: nat)

  datatype Final = Complete | Stopped | Failed

  datatype How = Returned | Threw(lengthBudget: bool)

  /** `HeadOnly`: an edit whose head is not answered yet.  `Queued`: its stream job has
      not passed its checks.  `Ended`: the stream is over but its job has not looked at
      the flags yet.  `Gone`: the stream chain has moved on, or the turn never joined it. */
  datatype Phase = HeadOnly | Queued | Streaming | Ended(how: How) | Settled | Written | Gone

  /** `resolved`: the promise the stream task awaits is resolved.  The last four fields
      are history: whether a stop reached the turn, the state it settled in, the number
      of model requests it issued and the final writes to its row. */
  datatype Turn = Turn(conv: Conv, kind: Kind, head: Head, resolved: bool, phase: Phase, cancelled: bool,
                       hit: bool, final: Option<Final>, asked: nat, written: seq<Final>)

  datatype State = State(
    turns: seq<Turn>,
    heads: map<Conv, seq<nat>>,   // chainTurnHead: turns whose POST is queued or under way
    tasks: map<Conv, seq<nat>>,   // chainTurnStream: turns whose stream task is queued or running
    queued: set<nat>,             // queuedTurnsRef
    aborts: map<Conv, nat>,       // streamAbortRef
    stopped: set<Conv>,           // userStoppedRef
    inFlight: set<nat>,           // inFlightStreamsRef
    locked: bool,                 // routerPickerLocked
    rows: nat)                    // rows the server has handed out

  const EMPTY := State([], map[], map[], {}, map[], {}, {}, false, 0)

  datatype Event =
    | BeginSend(conv: Conv, gate: bool)
    | BeginEdit(conv: Conv, gate: bool)
    | HeadAnswer(conv: Conv, ok: bool)
    | HeadResolve(t: nat)
    | StartTask(t: nat, gate: bool)
    | StreamOver(t: nat, how: How)
    | Settle(t: nat)
    | Write(t: nat)
    | Finish(t: nat)
    | Stop(conv: Conv, cancelQueued: bool)

  // ---------------------------------------------------------------- the steps

  function Chain(m: map<Conv, seq<nat>>, c: Conv): seq<nat> {
    if c in m then m[c] else []
  }

  function Fresh(c: Conv, kind: Kind, head: Head, phase: Phase): Turn {
    Turn(c, kind, head, !head.Waiting?, phase, false, false, None, 0, [])
  }

  function SetTurn(s: State, t: nat, u: Turn): State
    requires t < |s.turns|
  {
    s.(turns := s.turns[t := u])
  }

  /** `stopStreaming`. */
  function DoStop(s: State, c: Conv, cancelQueued: bool): State {
    var turns := seq(|s.turns|, t requires 0 <= t < |s.turns| => Reach(s, t, c, cancelQueued));
    s.(turns := turns, stopped := if c in s.aborts then s.stopped + {c} else s.stopped)
  }

  function Reach(s: State, t: nat, c: Conv, cancelQueued: bool): Turn
    requires t < |s.turns|
  {
    var u := s.turns[t];
    var cancels := cancelQueued && t in s.queued && u.conv == c;
    var aborts := c in s.aborts && s.aborts[c] == t;
    u.(cancelled := u.cancelled || cancels, hit := u.hit || cancels || aborts)
  }

  function DoBeginSend(s: State, c: Conv, gate: bool): State {
    var t := |s.turns|;
    var head := if !c.saved then NoHead else if !gate then Blocked else Waiting;
    s.(turns := s.turns + [Fresh(c, Send, head, Queued)],
       heads := if head.Waiting? then s.heads[c := Chain(s.heads, c) + [t]] else s.heads,
       queued := s.queued + {t},
       tasks := s.tasks[c := Chain(s.tasks, c) + [t]])
  }

  function DoBeginEdit(s: State, c: Conv, gate: bool): State {
    if !c.saved then s
    else
      var s1 := DoStop(s, c, false);
      if !gate then s1
      else
        s1.(turns := s1.turns + [Fresh(c, Edit, Waiting, HeadOnly)],
            heads := s1.heads[c := Chain(s1.heads, c) + [|s1.turns|]])
  }

  function DoHeadAnswer(s: State, c: Conv, ok: bool): State {
    if Chain(s.heads, c) == [] || Chain(s.heads, c)[0] >= |s.turns| then s
    else
      var t := s.heads[c][0];
      var u := s.turns[t];
      var s1 := s.(heads := s.heads[c := s.heads[c][1..]]);
      if !ok then
        SetTurn(s1, t, if u.kind.Send? then u.(head := Refused) else u.(head := Refused, resolved := true, phase := Gone))
      else
        var s2 := s1.(rows := s.rows + 1, locked := true, inFlight := s.inFlight + {t});
        if u.kind.Send? then
          SetTurn(s2, t, u.(head := Reserved(s.rows)))
        else
          SetTurn(s2.(queued := s.queued + {t}, tasks := s.tasks[c := Chain(s.tasks, c) + [t]]),
                  t, u.(head := Reserved(s.rows), resolved := true, phase := Queued))
  }

  function DoHeadResolve(s: State, t: nat): State {
    if t >= |s.turns| || s.turns[t].head.Waiting? then s
    else SetTurn(s, t, s.turns[t].(resolved := true))
  }

  /** `inFlightStreamsRef.delete` followed by the unlock test. */
  function Land(s: State, t: nat): State {
    var left := s.inFlight - {t};
    s.(inFlight := left, locked := if left == {} then false else s.locked)
  }

  predicate IsFirst(s: State, t: nat) {
    t < |s.turns| && Chain(s.tasks, s.turns[t].conv) != [] && Chain(s.tasks, s.turns[t].conv)[0] == t
  }

  /** The check in `streamWithAbort`: any queued record of the conversation is cancelled. */
  predicate SomeCancelled(s: State, c: Conv) {
    exists r :: r in s.queued && r < |s.turns| && s.turns[r].conv == c && s.turns[r].cancelled
  }

  /** The synchronous part of `streamWithAbort`. */
  function Open(s: State, t: nat, gate: bool): State
    requires t < |s.turns|
  {
    var u := s.turns[t];
    if !gate then SetTurn(s, t, u.(phase := Ended(Returned)))
    else if SomeCancelled(s, u.conv) then
      SetTurn(s.(stopped := s.stopped + {u.conv}, aborts := s.aborts - {u.conv}), t, u.(phase := Ended(Returned)))
    else SetTurn(s.(aborts := s.aborts[u.conv := t]), t, u.(phase := Streaming, asked := u.asked + 1))
  }

  /** The start of the job given to `chainTurnStream`. */
  function DoStartTask(s: State, t: nat, gate: bool): State {
    if !IsFirst(s, t) || !s.turns[t].phase.Queued? || !s.turns[t].resolved then s
    else
      var u := s.turns[t];
      if u.cancelled then
        SetTurn(Land(s.(queued := s.queued - {t}), t), t, u.(phase := Settled, final := Some(Stopped)))
      else if u.kind.Edit? then Open(s.(queued := s.queued - {t}), t, gate)
      else if u.head.Blocked? || u.head.Refused? then SetTurn(s.(queued := s.queued - {t}), t, u.(phase := Written))
      else Open(s, t, gate)
  }

  function DoStreamOver(s: State, t: nat, how: How): State {
    if t >= |s.turns| || !s.turns[t].phase.Streaming? then s
    else SetTurn(s, t, s.turns[t].(phase := Ended(how)))
  }

  /** The state a finished stream is given. */
  function Verdict(s: State, u: Turn): Final
    requires u.phase.Ended?
  {
    if u.conv in s.stopped || (u.kind.Send? && u.cancelled) then Stopped
    else if u.phase.how.Returned? || u.phase.how.lengthBudget then Complete
    else Failed
  }

  function DoSettle(s: State, t: nat): State {
    if t >= |s.turns| || !s.turns[t].phase.Ended? then s
    else
      var u := s.turns[t];
      SetTurn(Land(s.(aborts := s.aborts - {u.conv}, queued := s.queued - {t}, stopped := s.stopped - {u.conv}), t),
              t, u.(phase := Settled, final := Some(Verdict(s, u))))
  }

  function DoWrite(s: State, t: nat): State {
    if t >= |s.turns| || !s.turns[t].phase.Settled? || s.turns[t].final.None? then s
    else
      var u := s.turns[t];
      SetTurn(s, t, u.(phase := Written,
                       written := if u.head.Reserved? then u.written + [u.final.value] else u.written))
  }

  function DoFinish(s: State, t: nat): State {
    if !IsFirst(s, t) || !s.turns[t].phase.Written? then s
    else
      var u := s.turns[t];
      SetTurn(s.(tasks := s.tasks[u.conv := s.tasks[u.conv][1..]]), t, u.(phase := Gone))
  }

  function Apply(s: State, e: Event): State {
    match e
    case BeginSend(c, gate) => DoBeginSend(s, c, gate)
    case BeginEdit(c, gate) => DoBeginEdit(s, c, gate)
    case HeadAnswer(c, ok) => DoHeadAnswer(s, c, ok)
    case HeadResolve(t) => DoHeadResolve(s, t)
    case StartTask(t, gate) => DoStartTask(s, t, gate)
    case StreamOver(t, how) => DoStreamOver(s, t, how)
    case Settle(t) => DoSettle(s, t)
    case Write(t) => DoWrite(s, t)
    case Finish(t) => DoFinish(s, t)
    case Stop(c, cancelQueued) => DoStop(s, c, cancelQueued)
  }

  function Run(s: State, es: seq<Event>): State
    decreases |es|
  {
    if es == [] then s else Run(Apply(s, es[0]), es[1..])
  }

  // ---------------------------------------------------------------- the runtime object

  /** The refs of the shell and the steps that change them in place.  Each method is one
      event; its contract is the event's function. */
  class TurnRuntime {
    var turns: seq<Turn>
    var headChain: map<Conv, seq<nat>>
    var streamChain: map<Conv, seq<nat>>
    var queuedTurns: set<nat>
    var streamAbort: map<Conv, nat>
    var userStopped: set<Conv>
    var inFlightStreams: set<nat>
    var routerPickerLocked: bool
    var rows: nat

    function Snapshot(): State
      reads this
    {
      State(turns, headChain, streamChain, queuedTurns, streamAbort, userStopped, inFlightStreams, routerPickerLocked, rows)
    }

    constructor ()
      ensures Snapshot() == EMPTY
    {
      turns, headChain, streamChain := [], map[], map[];
      queuedTurns, streamAbort, userStopped := {}, map[], {};
      inFlightStreams, routerPickerLocked, rows := {}, false, 0;
    }

    method StopStreaming(c: Conv, cancelQueued: bool)
      modifies this
      ensures Snapshot() == DoStop(old(Snapshot()), c, cancelQueued)
    {
      ghost var s := Snapshot();
      if cancelQueued {
        for t := 0 to |turns|
          invariant Snapshot() == s.(turns := turns) && |turns| == |s.turns|
          invariant forall i | 0 <= i < |turns| ::
                      turns[i] == if i < t && i in s.queued && s.turns[i].conv == c
                                  then s.turns[i].(cancelled := true, hit := true) else s.turns[i]
        {
          if t in queuedTurns && turns[t].conv == c {
            turns := turns[t := turns[t].(cancelled := true, hit := true)];
          }
        }
      }
      if c in streamAbort {
        userStopped := userStopped + {c};
        if streamAbort[c] < |turns| {
          turns := turns[streamAbort[c] := turns[streamAbort[c]].(hit := true)];
        }
      }
    }

    method SendMessage(c: Conv, gate: bool) returns (t: nat)
      modifies this
      ensures t == |old(turns)| && Snapshot() == DoBeginSend(old(Snapshot()), c, gate)
    {
      t := |turns|;
      var head := NoHead;
      if c.saved {
        if !gate {
          head := Blocked;
        } else {
          head := Waiting;
          headChain := headChain[c := Chain(headChain, c) + [t]];
        }
      }
      turns := turns + [Fresh(c, Send, head, Queued)];
      queuedTurns := queuedTurns + {t};
      streamChain := streamChain[c := Chain(streamChain, c) + [t]];
    }

    method HandleEditUser(c: Conv, gate: bool)
      modifies this
      ensures Snapshot() == DoBeginEdit(old(Snapshot()), c, gate)
    {
      if !c.saved {
        return;
      }
      StopStreaming(c, false);
      if gate {
        headChain := headChain[c := Chain(headChain, c) + [|turns|]];
        turns := turns + [Fresh(c, Edit, Waiting, HeadOnly)];
      }
    }

    method AnswerHead(c: Conv, ok: bool)
      modifies this
      ensures Snapshot() == DoHeadAnswer(old(Snapshot()), c, ok)
    {
      var waiting := Chain(headChain, c);
      if waiting == [] || waiting[0] >= |turns| {
        return;
      }
      var t := waiting[0];
      var u := turns[t];
      headChain := headChain[c := waiting[1..]];
      if !ok {
        turns := turns[t := if u.kind.Send? then u.(head := Refused)
                            else u.(head := Refused, resolved := true, phase := Gone)];
        return;
      }
      u := u.(head := Reserved(rows));
      rows := rows + 1;
      routerPickerLocked := true;
      inFlightStreams := inFlightStreams + {t};
      if u.kind.Edit? {
        queuedTurns := queuedTurns + {t};
        u := u.(resolved := true, phase := Queued);
        streamChain := streamChain[c := Chain(streamChain, c) + [t]];
      }
      turns := turns[t := u];
    }

    method ForgetStream(t: nat)
      modifies this
      ensures Snapshot() == Land(old(Snapshot()), t)
    {
      inFlightStreams := inFlightStreams - {t};
      if inFlightStreams == {} {
        routerPickerLocked := false;
      }
    }

    method StreamWithAbort(t: nat, gate: bool)
      requires t < |turns|
      modifies this
      ensures Snapshot() == Open(old(Snapshot()), t, gate)
    {
      var c := turns[t].conv;
      if !gate {
        turns := turns[t := turns[t].(phase := Ended(Returned))];
        return;
      }
      ghost var before := streamAbort;
      streamAbort := streamAbort[c := t];
      if SomeCancelled(Snapshot(), c) {
        userStopped := userStopped + {c};
        streamAbort := streamAbort - {c};
        assert streamAbort == before - {c};
        turns := turns[t := turns[t].(phase := Ended(Returned))];
        return;
      }
      turns := turns[t := turns[t].(phase := Streaming, asked := turns[t].asked + 1)];
    }

    /** The job given to `chainTurnStream`, up to its first await after the head. */
    method RunTask(t: nat, gate: bool)
      modifies this
      ensures Snapshot() == DoStartTask(old(Snapshot()), t, gate)
    {
      if !IsFirst(Snapshot(), t) || !turns[t].phase.Queued? || !turns[t].resolved {
        return;
      }
      var u := turns[t];
      if u.kind.Edit? {
        queuedTurns := queuedTurns - {t};
        if u.cancelled {
          turns := turns[t := u.(phase := Settled, final := Some(Stopped))];
          ForgetStream(t);
        } else {
          StreamWithAbort(t, gate);
        }
        return;
      }
      if u.cancelled {
        queuedTurns := queuedTurns - {t};
        turns := turns[t := u.(phase := Settled, final := Some(Stopped))];
        ForgetStream(t);
        return;
      }
      if u.head.Blocked? || u.head.Refused? {
        queuedTurns := queuedTurns - {t};
        turns := turns[t := u.(phase := Written)];
        return;
      }
      StreamWithAbort(t, gate);
    }

    /** After the stream: `finally` of `streamWithAbort`, the verdict, `finally` of the job. */
    method SettleStream(t: nat)
      modifies this
      ensures Snapshot() == DoSettle(old(Snapshot()), t)
    {
      if t >= |turns| || !turns[t].phase.Ended? {
        return;
      }
      var u := turns[t];
      streamAbort := streamAbort - {u.conv};
      var streamState := Complete;
      match u.phase.how {
        case Returned =>
          if u.conv in userStopped || (u.kind.Send? && u.cancelled) {
            streamState := Stopped;
          }
        case Threw(lengthBudget) =>
          streamState := if u.conv in userStopped || (u.kind.Send? && u.cancelled) then Stopped else Failed;
          if streamState.Failed? && lengthBudget {
            streamState := Complete;
          }
      }
      queuedTurns := queuedTurns - {t};
      userStopped := userStopped - {u.conv};
      turns := turns[t := u.(phase := Settled, final := Some(streamState))];
      ForgetStream(t);
    }

    method FinalizeAssistant(t: nat)
      modifies this
      ensures Snapshot() == DoWrite(old(Snapshot()), t)
    {
      if t >= |turns| || !turns[t].phase.Settled? || turns[t].final.None? {
        return;
      }
      var u := turns[t];
      if u.head.Reserved? {
        u := u.(written := u.written + [u.final.value]);
      }
      turns := turns[t := u.(phase := Written)];
    }
  }
}
