/** The invariant of the turn protocol: how the registries, the two chains, the flags and the
    turns fit together, kept by every event. */
module TurnInvariant {
  import opened Basics
  import opened TurnProtocol

  predicate Live(p: Phase) {
    p.Queued? || p.Streaming? || p.Ended?
  }

  predicate OnChain(p: Phase) {
    !p.HeadOnly? && !p.Gone?
  }

  /** What is true of one turn, whatever the others do. */
  ghost predicate TurnOk(s: State, t: nat)
    requires t < |s.turns|
  {
    var u := s.turns[t];
    && (u.head.Waiting? ==> !u.resolved && (if u.kind.Send? then u.phase.Queued? else u.phase.HeadOnly?))
    && (u.phase.HeadOnly? ==> u.kind.Edit? && u.head.Waiting? && !u.hit && !u.cancelled)
    && (u.kind.Edit? ==> u.head.Waiting? || u.head.Reserved? || (u.head.Refused? && u.phase.Gone?))
    && (u.phase.Streaming? || u.phase.Ended? ==> u.head.NoHead? || u.head.Reserved?)
    && (t in s.queued <==> u.phase.Queued? || (u.kind.Send? && (u.phase.Streaming? || u.phase.Ended?)))
    && (t in s.inFlight <==> u.head.Reserved? && Live(u.phase))
    && (u.head.Reserved? ==> u.head.row < s.rows)
    && (u.phase.Queued? ==> u.hit == u.cancelled)
    && (u.phase.Streaming? || u.phase.Ended? ==>
          u.hit == (u.conv in s.stopped || (u.kind.Send? && u.cancelled)))
    && (u.phase.Streaming? ==> u.conv in s.aborts)
    && (u.final.Some? ==> !Live(u.phase) && !u.phase.HeadOnly? && (u.final.value.Stopped? <==> u.hit))
    && (u.phase.Settled? ==> u.final.Some?)
    && (u.phase.Written? || u.phase.Gone? ==> u.final.Some? || !u.head.Reserved?)
    && (u.phase.HeadOnly? || u.phase.Queued? ==> u.asked == 0)
    && (u.final == Some(Stopped) && u.asked == 0 ==> u.hit)
    && u.asked <= 1
    && u.written == (if u.head.Reserved? && (u.phase.Written? || u.phase.Gone?) then [u.final.value] else [])
  }

  ghost predicate HeadsOk(s: State, c: Conv) {
    WaitingIn(s.turns, Chain(s.heads, c), c)
  }

  /** `q` lists, in order, the turns of `c` whose head is not answered. */
  ghost predicate WaitingIn(turns: seq<Turn>, q: seq<nat>, c: Conv) {
    && (forall i | 0 <= i < |q| :: q[i] < |turns| && turns[q[i]].conv == c && turns[q[i]].head.Waiting?)
    && (forall i, j | 0 <= i < j < |q| :: q[i] < q[j])
    && (forall t | 0 <= t < |turns| && turns[t].conv == c && turns[t].head.Waiting? :: t in q)
  }

  ghost predicate TasksOk(s: State, c: Conv) {
    var q := Chain(s.tasks, c);
    && (forall i | 0 <= i < |q| :: q[i] < |s.turns| && s.turns[q[i]].conv == c)
    && (forall i, j | 0 <= i < j < |q| :: q[i] != q[j])
    && (forall i | 0 <= i < |q| :: if i == 0 then OnChain(s.turns[q[i]].phase) else s.turns[q[i]].phase.Queued?)
    && (forall t | 0 <= t < |s.turns| && s.turns[t].conv == c && OnChain(s.turns[t].phase) :: t in q)
    && (forall i, j | 0 <= i < j < |q| && s.turns[q[i]].phase.Queued? && s.turns[q[j]].cancelled :: s.turns[q[i]].cancelled)
  }

  ghost predicate FlagsOk(s: State, c: Conv) {
    var q := Chain(s.tasks, c);
    && (c in s.aborts ==> q != [] && s.aborts[c] == q[0] && q[0] < |s.turns| &&
                          (s.turns[q[0]].phase.Streaming? || s.turns[q[0]].phase.Ended?))
    && (c in s.stopped ==> q != [] && q[0] < |s.turns| &&
                           (s.turns[q[0]].phase.Streaming? || s.turns[q[0]].phase.Ended?))
  }

  /** Rows are handed out in the order the turns of a conversation were begun. */
  ghost predicate RowsOk(s: State) {
    && (forall t, v | 0 <= t < v < |s.turns| && s.turns[t].head.Reserved? && s.turns[v].head.Reserved? ::
          s.turns[t].head.row != s.turns[v].head.row)
    && (forall t, v | 0 <= t < v < |s.turns| && s.turns[t].conv == s.turns[v].conv && s.turns[v].head.Reserved? ::
          !s.turns[t].head.Waiting? && (s.turns[t].head.Reserved? ==> s.turns[t].head.row < s.turns[v].head.row))
  }

  ghost predicate Inv(s: State) {
    && (forall t | 0 <= t < |s.turns| :: TurnOk(s, t))
    && (forall c :: HeadsOk(s, c))
    && (forall c :: TasksOk(s, c))
    && (forall c :: FlagsOk(s, c))
    && RowsOk(s)
    && (forall t | t in s.queued :: t < |s.turns|)
    && (forall t | t in s.inFlight :: t < |s.turns|)
    && (s.locked <==> s.inFlight != {})
  }

  lemma InvEmpty()
    ensures Inv(EMPTY)
  {
  }

  // ---------------------------------------------------------------- events that change one turn

  /** `z` is `s` except for the phase, promise and history of turn `t` and the flags that
      turn `t` may touch. */
  ghost predicate OnlyTurn(s: State, z: State, t: nat) {
    && t < |s.turns| && |z.turns| == |s.turns| && z.heads == s.heads && z.rows == s.rows
    && (forall i | 0 <= i < |s.turns| && i != t :: z.turns[i] == s.turns[i])
    && z.turns[t].conv == s.turns[t].conv && z.turns[t].kind == s.turns[t].kind
    && z.turns[t].head == s.turns[t].head && z.turns[t].cancelled == s.turns[t].cancelled
    && z.queued - {t} == s.queued - {t} && z.inFlight - {t} == s.inFlight - {t}
    && (forall c | c != s.turns[t].conv :: (c in z.stopped <==> c in s.stopped) && (c in z.aborts <==> c in s.aborts))
    && (forall c | c != s.turns[t].conv && c in s.aborts :: z.aborts[c] == s.aborts[c])
  }

  lemma OnlyTurnHeads(s: State, z: State, t: nat)
    requires Inv(s) && OnlyTurn(s, z, t)
    ensures forall c :: HeadsOk(z, c)
  {
    forall c ensures HeadsOk(z, c) { assert HeadsOk(s, c); }
  }

  lemma OnlyTurnRows(s: State, z: State, t: nat)
    requires Inv(s) && OnlyTurn(s, z, t)
    ensures RowsOk(z)
  {
    assert forall i | 0 <= i < |s.turns| :: z.turns[i].conv == s.turns[i].conv && z.turns[i].head == s.turns[i].head;
  }

  lemma TasksKeep(s: State, z: State, t: nat, c: Conv)
    requires TasksOk(s, c) && t < |s.turns| && |z.turns| == |s.turns| && Chain(z.tasks, c) == Chain(s.tasks, c)
    requires forall i | 0 <= i < |s.turns| && i != t :: z.turns[i] == s.turns[i]
    requires z.turns[t].conv == s.turns[t].conv && z.turns[t].cancelled == s.turns[t].cancelled
    requires OnChain(z.turns[t].phase) && !z.turns[t].phase.Queued?
    requires s.turns[t].conv == c ==> Chain(s.tasks, c) != [] && Chain(s.tasks, c)[0] == t
    ensures TasksOk(z, c)
  {
    var q := Chain(s.tasks, c);
    forall i | 0 <= i < |q|
      ensures q[i] == t ==> i == 0
    {
    }
  }

  /** The first turn of a chain moves on to another phase on the chain. */
  lemma OnlyTurnTasks(s: State, z: State, t: nat)
    requires Inv(s) && OnlyTurn(s, z, t) && z.tasks == s.tasks && IsFirst(s, t)
    requires OnChain(z.turns[t].phase) && !z.turns[t].phase.Queued?
    ensures forall c :: TasksOk(z, c)
  {
    forall c ensures TasksOk(z, c) {
      assert TasksOk(s, c);
      TasksKeep(s, z, t, c);
    }
  }

  /** The other turns do not notice: none of the same conversation is streaming. */
  lemma OnlyTurnOthers(s: State, z: State, t: nat, i: nat)
    requires Inv(s) && OnlyTurn(s, z, t) && IsFirst(s, t) && i < |s.turns| && i != t
    ensures TurnOk(z, i)
  {
    assert TurnOk(s, i);
    assert i in s.queued <==> i in s.queued - {t};
    assert i in z.queued <==> i in z.queued - {t};
    assert i in s.inFlight <==> i in s.inFlight - {t};
    assert i in z.inFlight <==> i in z.inFlight - {t};
    if s.turns[i].conv == s.turns[t].conv { NotFirst(s, t, i); }
  }

  /** Behind the first turn of a conversation no turn streams. */
  lemma NotFirst(s: State, t: nat, i: nat)
    requires Inv(s) && IsFirst(s, t) && i < |s.turns| && i != t && s.turns[i].conv == s.turns[t].conv
    ensures !s.turns[i].phase.Streaming? && !s.turns[i].phase.Ended?
  {
    assert TasksOk(s, s.turns[t].conv);
  }

  lemma OnlyTurnFlags(s: State, z: State, t: nat, c: Conv)
    requires Inv(s) && OnlyTurn(s, z, t) && z.tasks == s.tasks && c != s.turns[t].conv
    ensures FlagsOk(z, c)
  {
    assert FlagsOk(s, c) && TasksOk(s, c);
    var q := Chain(s.tasks, c);
    if q != [] { assert s.turns[q[0]].conv == c; }
  }

  /** A step of the first turn keeps the invariant if that turn and its conversation's
      flags are in order afterwards. */
  lemma FirstTurnStep(s: State, z: State, t: nat)
    requires Inv(s) && OnlyTurn(s, z, t) && z.tasks == s.tasks && IsFirst(s, t)
    requires OnChain(z.turns[t].phase) && !z.turns[t].phase.Queued?
    requires TurnOk(z, t) && FlagsOk(z, s.turns[t].conv)
    requires z.queued <= s.queued && z.inFlight <= s.inFlight
    requires z.locked <==> z.inFlight != {}
    ensures Inv(z)
  {
    OnlyTurnHeads(s, z, t);
    OnlyTurnRows(s, z, t);
    OnlyTurnTasks(s, z, t);
    forall c ensures FlagsOk(z, c) {
      if c != s.turns[t].conv { OnlyTurnFlags(s, z, t, c); }
    }
    forall i | 0 <= i < |z.turns| ensures TurnOk(z, i) {
      if i != t { OnlyTurnOthers(s, z, t, i); }
    }
  }

  /** A streaming or finished stream is the first of its chain. */
  lemma StreamIsFirst(s: State, t: nat)
    requires Inv(s) && t < |s.turns|
    requires s.turns[t].phase.Streaming? || s.turns[t].phase.Ended? || s.turns[t].phase.Settled? || s.turns[t].phase.Written?
    ensures IsFirst(s, t)
  {
    assert TasksOk(s, s.turns[t].conv);
  }

  lemma InvHeadResolve(s: State, t: nat)
    requires Inv(s)
    ensures Inv(DoHeadResolve(s, t))
  {
    var z := DoHeadResolve(s, t);
    if t < |s.turns| && !s.turns[t].head.Waiting? {
      OnlyTurnHeads(s, z, t);
      OnlyTurnRows(s, z, t);
      forall i | 0 <= i < |s.turns| ensures z.turns[i] == s.turns[i].(resolved := z.turns[i].resolved) {}
      forall c ensures TasksOk(z, c) { SameTasks(s, z, c); }
      forall c ensures FlagsOk(z, c) { assert FlagsOk(s, c); }
      forall i | 0 <= i < |z.turns| ensures TurnOk(z, i) { assert TurnOk(s, i); }
    }
  }

  lemma SameTasks(s: State, z: State, c: Conv)
    requires Inv(s) && |z.turns| == |s.turns| && z.tasks == s.tasks
    requires forall i | 0 <= i < |s.turns| ::
               z.turns[i].conv == s.turns[i].conv && z.turns[i].phase == s.turns[i].phase && z.turns[i].cancelled == s.turns[i].cancelled
    ensures TasksOk(z, c)
  {
    assert TasksOk(s, c);
  }

  /** The first turn of a chain that is not cancelled finds no cancelled record in its
      conversation: a stop cancels everything that was queued before it. */
  lemma NoneCancelled(s: State, t: nat)
    requires Inv(s) && IsFirst(s, t) && s.turns[t].phase.Queued? && !s.turns[t].cancelled
    ensures !SomeCancelled(s, s.turns[t].conv)
    ensures !SomeCancelled(s.(queued := s.queued - {t}), s.turns[t].conv)
  {
    var c := s.turns[t].conv;
    assert TasksOk(s, c);
    forall r | r in s.queued && r < |s.turns| && s.turns[r].conv == c
      ensures !s.turns[r].cancelled
    {
      assert TurnOk(s, r);
      var q := Chain(s.tasks, c);
      assert r in q;
      var j :| 0 <= j < |q| && q[j] == r;
    }
  }

  lemma InvOpen(s: State, t: nat, gate: bool)
    requires Inv(s) && IsFirst(s, t) && s.turns[t].phase.Queued? && s.turns[t].resolved && !s.turns[t].cancelled
    requires s.turns[t].head.NoHead? || s.turns[t].head.Reserved?
    ensures var from := if s.turns[t].kind.Edit? then s.(queued := s.queued - {t}) else s;
            Inv(Open(from, t, gate))
  {
    var u := s.turns[t];
    var from := if u.kind.Edit? then s.(queued := s.queued - {t}) else s;
    var z := Open(from, t, gate);
    NoneCancelled(s, t);
    assert TurnOk(s, t) && FlagsOk(s, u.conv);
    FirstTurnStep(s, z, t);
  }

  lemma InvStartTask(s: State, t: nat, gate: bool)
    requires Inv(s)
    ensures Inv(DoStartTask(s, t, gate))
  {
    if IsFirst(s, t) && s.turns[t].phase.Queued? && s.turns[t].resolved {
      var u := s.turns[t];
      var z := DoStartTask(s, t, gate);
      assert TurnOk(s, t) && FlagsOk(s, u.conv);
      if !u.cancelled && !u.head.Blocked? && !u.head.Refused? {
        InvOpen(s, t, gate);
      } else {
        FirstTurnStep(s, z, t);
      }
    }
  }

  lemma InvStreamOver(s: State, t: nat, how: How)
    requires Inv(s)
    ensures Inv(DoStreamOver(s, t, how))
  {
    if t < |s.turns| && s.turns[t].phase.Streaming? {
      StreamIsFirst(s, t);
      assert TurnOk(s, t) && FlagsOk(s, s.turns[t].conv);
      FirstTurnStep(s, DoStreamOver(s, t, how), t);
    }
  }

  lemma InvSettle(s: State, t: nat)
    requires Inv(s)
    ensures Inv(DoSettle(s, t))
  {
    if t < |s.turns| && s.turns[t].phase.Ended? {
      StreamIsFirst(s, t);
      assert TurnOk(s, t) && FlagsOk(s, s.turns[t].conv);
      FirstTurnStep(s, DoSettle(s, t), t);
    }
  }

  lemma InvWrite(s: State, t: nat)
    requires Inv(s)
    ensures Inv(DoWrite(s, t))
  {
    if t < |s.turns| && s.turns[t].phase.Settled? {
      StreamIsFirst(s, t);
      assert TurnOk(s, t) && FlagsOk(s, s.turns[t].conv);
      FirstTurnStep(s, DoWrite(s, t), t);
    }
  }

  lemma TailMember(q: seq<nat>, v: nat)
    requires q != []
    ensures v in q ==> v == q[0] || v in q[1..]
  {
  }

  lemma TailIs(q: seq<nat>, t: nat)
    requires q != [] && q[0] == t && forall i, j | 0 <= i < j < |q| :: q[i] != q[j]
    ensures forall v :: v in q[1..] <==> v in q && v != t
  {
    forall v
      ensures v in q[1..] <==> v in q && v != t
    {
      TailMember(q, v);
      if v in q[1..] {
        var i :| 0 <= i < |q| - 1 && q[1..][i] == v;
        assert q[i + 1] == v;
      }
    }
  }

  /** The first turn of a chain leaves it, and the chain. */
  lemma TasksLose(s: State, z: State, t: nat, c: Conv)
    requires TasksOk(s, c) && Chain(s.tasks, c) != [] && Chain(s.tasks, c)[0] == t
    requires |z.turns| == |s.turns| && !OnChain(z.turns[t].phase)
    requires forall i | 0 <= i < |s.turns| && i != t :: z.turns[i] == s.turns[i]
    requires Chain(z.tasks, c) == Chain(s.tasks, c)[1..]
    ensures TasksOk(z, c)
  {
    var q := Chain(s.tasks, c);
    var r := Chain(z.tasks, c);
    TailIs(q, t);
    forall i | 0 <= i < |r|
      ensures r[i] == q[i + 1] && z.turns[r[i]] == s.turns[r[i]]
    {
      assert r[i] in r;
    }
  }

  lemma FinishTasks(s: State, t: nat)
    requires Inv(s) && IsFirst(s, t) && s.turns[t].phase.Written?
    ensures TasksOk(DoFinish(s, t), s.turns[t].conv)
  {
    assert TasksOk(s, s.turns[t].conv);
    TasksLose(s, DoFinish(s, t), t, s.turns[t].conv);
  }

  lemma FinishOtherTasks(s: State, t: nat, d: Conv)
    requires Inv(s) && IsFirst(s, t) && s.turns[t].phase.Written? && d != s.turns[t].conv
    ensures TasksOk(DoFinish(s, t), d)
  {
    assert TasksOk(s, d);
    assert Chain(DoFinish(s, t).tasks, d) == Chain(s.tasks, d);
  }

  lemma FinishFlags(s: State, t: nat, d: Conv)
    requires Inv(s) && IsFirst(s, t) && s.turns[t].phase.Written?
    ensures FlagsOk(DoFinish(s, t), d)
  {
    assert FlagsOk(s, d) && TasksOk(s, d);
  }

  lemma InvFinish(s: State, t: nat)
    requires Inv(s)
    ensures Inv(DoFinish(s, t))
  {
    if IsFirst(s, t) && s.turns[t].phase.Written? {
      var z := DoFinish(s, t);
      assert TurnOk(s, t);
      OnlyTurnHeads(s, z, t);
      OnlyTurnRows(s, z, t);
      forall c ensures TasksOk(z, c) && FlagsOk(z, c) {
        if c == s.turns[t].conv { FinishTasks(s, t); } else { FinishOtherTasks(s, t, c); }
        FinishFlags(s, t, c);
      }
      forall i | 0 <= i < |z.turns| ensures TurnOk(z, i) {
        if i != t { OnlyTurnOthers(s, z, t, i); }
      }
    }
  }

  // ---------------------------------------------------------------- events that reach several turns

  lemma StopTurn(s: State, c: Conv, cancelQueued: bool, i: nat)
    requires Inv(s) && i < |s.turns|
    ensures TurnOk(DoStop(s, c, cancelQueued), i)
  {
    assert TurnOk(s, i) && FlagsOk(s, c) && TasksOk(s, c);
  }

  /** A queued turn of the stopped conversation is cancelled with the others. */
  lemma StopCancels(s: State, c: Conv, i: nat)
    requires Inv(s) && i < |s.turns| && s.turns[i].phase.Queued? && s.turns[i].conv == c
    ensures DoStop(s, c, true).turns[i].cancelled
  {
    assert TurnOk(s, i);
  }

  lemma StopTasks(s: State, c: Conv, cancelQueued: bool, d: Conv)
    requires Inv(s)
    ensures TasksOk(DoStop(s, c, cancelQueued), d)
  {
    var z := DoStop(s, c, cancelQueued);
    assert TasksOk(s, d);
    var q := Chain(s.tasks, d);
    forall i | 0 <= i < |s.turns|
      ensures z.turns[i].conv == s.turns[i].conv && z.turns[i].phase == s.turns[i].phase
      ensures s.turns[i].cancelled ==> z.turns[i].cancelled
      ensures z.turns[i].cancelled && !s.turns[i].cancelled ==> cancelQueued && s.turns[i].conv == c
    {
    }
    forall i, j | 0 <= i < j < |q| && z.turns[q[i]].phase.Queued? && z.turns[q[j]].cancelled
      ensures z.turns[q[i]].cancelled
    {
      if !s.turns[q[j]].cancelled { StopCancels(s, c, q[i]); }
    }
  }

  lemma InvStop(s: State, c: Conv, cancelQueued: bool)
    requires Inv(s)
    ensures Inv(DoStop(s, c, cancelQueued))
  {
    var z := DoStop(s, c, cancelQueued);
    forall d ensures HeadsOk(z, d) { assert HeadsOk(s, d); }
    forall d ensures TasksOk(z, d) { StopTasks(s, c, cancelQueued, d); }
    forall d ensures FlagsOk(z, d) { assert TasksOk(s, d) && FlagsOk(s, d); }
    forall i | 0 <= i < |z.turns| ensures TurnOk(z, i) { StopTurn(s, c, cancelQueued, i); }
    assert RowsOk(s);
  }

  // ---------------------------------------------------------------- events that add a turn

  /** `z` is `s` with one more turn, of conversation `c`, and only that turn on new lists. */
  ghost predicate OneMore(s: State, z: State, c: Conv) {
    var t := |s.turns|;
    && |z.turns| == t + 1 && z.turns[..t] == s.turns && z.turns[t].conv == c && !z.turns[t].head.Reserved?
    && z.aborts == s.aborts && z.stopped == s.stopped && z.inFlight == s.inFlight && z.locked == s.locked
    && z.rows == s.rows && (z.queued == s.queued || z.queued == s.queued + {t})
    && (forall d | d != c :: Chain(z.heads, d) == Chain(s.heads, d) && Chain(z.tasks, d) == Chain(s.tasks, d))
    && Chain(z.heads, c) == Chain(s.heads, c) + (if z.turns[t].head.Waiting? then [t] else [])
    && Chain(z.tasks, c) == Chain(s.tasks, c) + (if OnChain(z.turns[t].phase) then [t] else [])
  }

  lemma OneMoreSame(s: State, z: State, c: Conv, i: nat)
    requires OneMore(s, z, c) && i < |s.turns|
    ensures z.turns[i] == s.turns[i]
  {
    assert z.turns[..|s.turns|][i] == z.turns[i];
  }

  lemma WaitingJoins(turns: seq<Turn>, u: Turn, q: seq<nat>, c: Conv)
    requires WaitingIn(turns, q, c) && u.conv == c && u.head.Waiting?
    ensures WaitingIn(turns + [u], q + [|turns|], c)
  {
    forall t | 0 <= t < |turns + [u]| && (turns + [u])[t].conv == c && (turns + [u])[t].head.Waiting?
      ensures t in q + [|turns|]
    {
      if t < |turns| { assert t in q; }
    }
  }

  lemma WaitingStays(turns: seq<Turn>, u: Turn, q: seq<nat>, c: Conv)
    requires WaitingIn(turns, q, c) && !(u.conv == c && u.head.Waiting?)
    ensures WaitingIn(turns + [u], q, c)
  {
  }

  lemma OneMoreHeads(s: State, z: State, c: Conv, d: Conv)
    requires HeadsOk(s, d) && OneMore(s, z, c)
    ensures HeadsOk(z, d)
  {
    var u := z.turns[|s.turns|];
    assert z.turns == s.turns + [u];
    if d == c && u.head.Waiting? {
      WaitingJoins(s.turns, u, Chain(s.heads, d), d);
    } else {
      WaitingStays(s.turns, u, Chain(s.heads, d), d);
    }
  }

  lemma OneMoreTasks(s: State, z: State, c: Conv, d: Conv)
    requires Inv(s) && OneMore(s, z, c)
    requires var u := z.turns[|s.turns|]; (u.phase.Queued? || u.phase.HeadOnly?) && !u.cancelled
    ensures TasksOk(z, d)
  {
    assert TasksOk(s, d);
    forall i | 0 <= i < |s.turns| ensures z.turns[i] == s.turns[i] { OneMoreSame(s, z, c, i); }
    TasksAppend(s, z, |s.turns|, d);
  }

  /** Turn `t` joins the end of its chain, or no chain. */
  lemma TasksAppend(s: State, z: State, t: nat, d: Conv)
    requires TasksOk(s, d) && t < |z.turns| && |s.turns| <= |z.turns| <= |s.turns| + 1
    requires |z.turns| == |s.turns| + 1 ==> t == |s.turns|
    requires forall i | 0 <= i < |s.turns| && i != t :: z.turns[i] == s.turns[i]
    requires t < |s.turns| ==> !OnChain(s.turns[t].phase)
    requires if z.turns[t].conv == d && OnChain(z.turns[t].phase)
             then Chain(z.tasks, d) == Chain(s.tasks, d) + [t] && z.turns[t].phase.Queued? && !z.turns[t].cancelled
             else Chain(z.tasks, d) == Chain(s.tasks, d)
    ensures TasksOk(z, d)
  {
    var q := Chain(s.tasks, d);
    forall i | 0 <= i < |q|
      ensures q[i] != t && z.turns[q[i]] == s.turns[q[i]]
    {
    }
    var r := Chain(z.tasks, d);
    assert forall i | 0 <= i < |q| :: r[i] == q[i];
    forall v | 0 <= v < |z.turns| && z.turns[v].conv == d && OnChain(z.turns[v].phase)
      ensures v in r
    {
      if v == t {
        assert r[|q|] == t;
      } else {
        assert v in q;
      }
    }
  }

  lemma OneMoreFlags(s: State, z: State, c: Conv, d: Conv)
    requires Inv(s) && OneMore(s, z, c)
    ensures FlagsOk(z, d)
  {
    assert TasksOk(s, d) && FlagsOk(s, d);
    forall i | 0 <= i < |s.turns| ensures z.turns[i] == s.turns[i] { OneMoreSame(s, z, c, i); }
  }

  lemma OneMoreRows(s: State, z: State, c: Conv)
    requires Inv(s) && OneMore(s, z, c)
    ensures RowsOk(z)
  {
    forall i | 0 <= i < |s.turns| ensures z.turns[i] == s.turns[i] { OneMoreSame(s, z, c, i); }
  }

  lemma OneMoreTurn(s: State, z: State, c: Conv)
    requires Inv(s) && OneMore(s, z, c)
    requires var u := z.turns[|s.turns|]; (u.phase.Queued? || u.phase.HeadOnly?) && !u.cancelled
    requires TurnOk(z, |s.turns|)
    ensures Inv(z)
  {
    forall d ensures HeadsOk(z, d) { OneMoreHeads(s, z, c, d); }
    forall d ensures TasksOk(z, d) && FlagsOk(z, d) { OneMoreTasks(s, z, c, d); OneMoreFlags(s, z, c, d); }
    OneMoreRows(s, z, c);
    forall i | 0 <= i < |z.turns| ensures TurnOk(z, i) {
      if i < |s.turns| {
        OneMoreSame(s, z, c, i);
        assert TurnOk(s, i);
      }
    }
  }

  lemma InvBeginSend(s: State, c: Conv, gate: bool)
    requires Inv(s)
    ensures Inv(DoBeginSend(s, c, gate))
  {
    OneMoreTurn(s, DoBeginSend(s, c, gate), c);
  }

  lemma InvBeginEdit(s: State, c: Conv, gate: bool)
    requires Inv(s)
    ensures Inv(DoBeginEdit(s, c, gate))
  {
    InvStop(s, c, false);
    if c.saved && gate {
      OneMoreTurn(DoStop(s, c, false), DoBeginEdit(s, c, gate), c);
    }
  }

  // ---------------------------------------------------------------- the head is answered

  lemma AnswerRows(s: State, z: State, c: Conv)
    requires Inv(s) && Chain(s.heads, c) != []
    requires var t := s.heads[c][0];
             && t < |s.turns| && |z.turns| == |s.turns|
             && (forall i | 0 <= i < |s.turns| && i != t :: z.turns[i] == s.turns[i])
             && z.turns[t].conv == c && (z.turns[t].head == Reserved(s.rows) || z.turns[t].head.Refused?)
    ensures RowsOk(z)
  {
    var t := s.heads[c][0];
    assert HeadsOk(s, c);
    assert forall i | 0 <= i < |s.turns| && s.turns[i].head.Reserved? :: TurnOk(s, i) && s.turns[i].head.row < s.rows;
  }

  /** The first turn of a head chain leaves it and no longer waits. */
  ghost predicate Answered(s: State, z: State, c: Conv) {
    && Chain(s.heads, c) != [] && s.heads[c][0] < |s.turns| && |z.turns| == |s.turns|
    && z.heads == s.heads[c := s.heads[c][1..]]
    && (forall i | 0 <= i < |s.turns| && i != s.heads[c][0] :: z.turns[i] == s.turns[i])
    && z.turns[s.heads[c][0]].conv == s.turns[s.heads[c][0]].conv && !z.turns[s.heads[c][0]].head.Waiting?
  }

  /** An answered turn. */
  function AnsweredTurn(u: Turn, ok: bool, rows: nat): Turn {
    if ok then
      if u.kind.Send? then u.(head := Reserved(rows)) else u.(head := Reserved(rows), resolved := true, phase := Queued)
    else if u.kind.Send? then u.(head := Refused)
    else u.(head := Refused, resolved := true, phase := Gone)
  }

  lemma AnswerSets(s: State, c: Conv, ok: bool)
    requires Chain(s.heads, c) != [] && s.heads[c][0] < |s.turns|
    ensures var t := s.heads[c][0]; DoHeadAnswer(s, c, ok).turns == s.turns[t := AnsweredTurn(s.turns[t], ok, s.rows)]
  {
  }

  lemma AnswerIs(s: State, c: Conv, ok: bool)
    requires Inv(s) && Chain(s.heads, c) != []
    ensures Answered(s, DoHeadAnswer(s, c, ok), c)
  {
    assert HeadsOk(s, c);
    AnswerSets(s, c, ok);
    AnswerHeads(s, c, ok);
  }

  lemma AnswerHeads(s: State, c: Conv, ok: bool)
    requires Chain(s.heads, c) != [] && s.heads[c][0] < |s.turns|
    ensures DoHeadAnswer(s, c, ok).heads == s.heads[c := s.heads[c][1..]]
  {
  }

  lemma AnswerOwnHeads(s: State, z: State, c: Conv)
    requires HeadsOk(s, c) && Answered(s, z, c)
    ensures HeadsOk(z, c)
  {
    var q := Chain(s.heads, c);
    var r := Chain(z.heads, c);
    assert r == q[1..];
    forall i | 0 <= i < |r|
      ensures r[i] == q[i + 1] && r[i] != q[0] && z.turns[r[i]] == s.turns[r[i]]
    {
    }
    forall v | 0 <= v < |z.turns| && z.turns[v].conv == c && z.turns[v].head.Waiting?
      ensures v in r
    {
      assert v != q[0];
      TailMember(q, v);
    }
  }

  lemma AnswerOtherHeads(s: State, z: State, c: Conv, d: Conv)
    requires HeadsOk(s, d) && HeadsOk(s, c) && Answered(s, z, c) && d != c
    ensures HeadsOk(z, d)
  {
    assert Chain(z.heads, d) == Chain(s.heads, d);
  }

  lemma SendAnswerTasks(s: State, c: Conv, ok: bool, d: Conv)
    requires Inv(s) && Chain(s.heads, c) != [] && s.heads[c][0] < |s.turns| && s.turns[s.heads[c][0]].kind.Send?
    ensures TasksOk(DoHeadAnswer(s, c, ok), d)
  {
    assert TasksOk(s, d);
    var z := DoHeadAnswer(s, c, ok);
    assert z.tasks == s.tasks;
    forall i | 0 <= i < |s.turns|
      ensures z.turns[i] == s.turns[i].(head := z.turns[i].head)
    {
    }
  }

  lemma AnswerTasks(s: State, c: Conv, ok: bool, d: Conv)
    requires Inv(s) && Chain(s.heads, c) != []
    ensures TasksOk(DoHeadAnswer(s, c, ok), d)
  {
    assert HeadsOk(s, c);
    var t := s.heads[c][0];
    assert TurnOk(s, t);
    if s.turns[t].kind.Edit? {
      assert TasksOk(s, d);
      TasksAppend(s, DoHeadAnswer(s, c, ok), t, d);
    } else {
      SendAnswerTasks(s, c, ok, d);
    }
  }

  /** The flags of a conversation stay in order while the head of its chain stays. */
  lemma FlagsStay(s: State, z: State, d: Conv)
    requires FlagsOk(s, d) && z.aborts == s.aborts && z.stopped == s.stopped
    requires d in s.aborts || d in s.stopped ==>
               && Chain(s.tasks, d) != [] && Chain(z.tasks, d) != [] && Chain(z.tasks, d)[0] == Chain(s.tasks, d)[0]
               && Chain(s.tasks, d)[0] < |z.turns| && z.turns[Chain(s.tasks, d)[0]] == s.turns[Chain(s.tasks, d)[0]]
    ensures FlagsOk(z, d)
  {
  }

  lemma AnswerFlags(s: State, c: Conv, ok: bool, d: Conv)
    requires Inv(s) && Chain(s.heads, c) != []
    ensures FlagsOk(DoHeadAnswer(s, c, ok), d)
  {
    assert HeadsOk(s, c) && FlagsOk(s, d);
    var t := s.heads[c][0];
    assert TurnOk(s, t);
    AnswerKeepsFlags(s, c, ok);
    AnswerSets(s, c, ok);
    AnswerTail(s, c, ok, d);
    if d in s.aborts || d in s.stopped {
      assert Chain(s.tasks, d)[0] != t;
    }
    FlagsStay(s, DoHeadAnswer(s, c, ok), d);
  }

  lemma AnswerKeepsFlags(s: State, c: Conv, ok: bool)
    ensures DoHeadAnswer(s, c, ok).aborts == s.aborts && DoHeadAnswer(s, c, ok).stopped == s.stopped
  {
  }

  /** An answered head only ever adds to the end of a stream chain. */
  lemma AnswerTail(s: State, c: Conv, ok: bool, d: Conv)
    requires Inv(s) && Chain(s.heads, c) != []
    ensures Chain(s.tasks, d) <= Chain(DoHeadAnswer(s, c, ok).tasks, d)
  {
  }

  lemma AnswerOwnTurn(s: State, c: Conv, ok: bool)
    requires Inv(s) && Chain(s.heads, c) != [] && s.heads[c][0] < |s.turns|
    ensures TurnOk(DoHeadAnswer(s, c, ok), s.heads[c][0])
  {
    assert HeadsOk(s, c) && TurnOk(s, s.heads[c][0]);
  }

  /** A turn is in order after a step that touched none of its flags. */
  lemma Unnoticed(s: State, z: State, i: nat)
    requires i < |s.turns| && i < |z.turns| && TurnOk(s, i) && z.turns[i] == s.turns[i]
    requires (i in z.queued <==> i in s.queued) && (i in z.inFlight <==> i in s.inFlight)
    requires z.stopped == s.stopped && z.aborts == s.aborts && z.rows >= s.rows
    ensures TurnOk(z, i)
  {
  }

  lemma AnswerOtherTurn(s: State, c: Conv, ok: bool, i: nat)
    requires Inv(s) && Chain(s.heads, c) != [] && i < |s.turns| && i != s.heads[c][0]
    ensures TurnOk(DoHeadAnswer(s, c, ok), i)
  {
    Unnoticed(s, DoHeadAnswer(s, c, ok), i);
  }

  lemma AnswerTurn(s: State, c: Conv, ok: bool, i: nat)
    requires Inv(s) && i < |s.turns| && Chain(s.heads, c) != []
    ensures TurnOk(DoHeadAnswer(s, c, ok), i)
  {
    if i == s.heads[c][0] { AnswerOwnTurn(s, c, ok); } else { AnswerOtherTurn(s, c, ok, i); }
  }

  lemma InvHeadAnswer(s: State, c: Conv, ok: bool)
    requires Inv(s)
    ensures Inv(DoHeadAnswer(s, c, ok))
  {
    var z := DoHeadAnswer(s, c, ok);
    assert HeadsOk(s, c);
    if Chain(s.heads, c) != [] {
      AnswerIs(s, c, ok);
      forall d ensures HeadsOk(z, d) {
        assert HeadsOk(s, d);
        if d == c { AnswerOwnHeads(s, z, c); } else { AnswerOtherHeads(s, z, c, d); }
      }
      forall d ensures TasksOk(z, d) && FlagsOk(z, d) { AnswerTasks(s, c, ok, d); AnswerFlags(s, c, ok, d); }
      forall i | 0 <= i < |z.turns| ensures TurnOk(z, i) { AnswerTurn(s, c, ok, i); }
      AnswerRows(s, z, c);
    }
  }

  /** The events of one turn: `HeadResolve`, `StartTask`, `StreamOver`, `Settle`, `Write`, `Finish`. */
  lemma InvTurnEvent(s: State, e: Event)
    requires Inv(s) && !e.BeginSend? && !e.BeginEdit? && !e.HeadAnswer? && !e.Stop?
    ensures Inv(Apply(s, e))
  {
    match e
    case HeadResolve(t) => InvHeadResolve(s, t);
    case StartTask(t, gate) => InvStartTask(s, t, gate);
    case StreamOver(t, how) => InvStreamOver(s, t, how);
    case Settle(t) => InvSettle(s, t);
    case Write(t) => InvWrite(s, t);
    case Finish(t) => InvFinish(s, t);
  }

  lemma InvApply(s: State, e: Event)
    requires Inv(s)
    ensures Inv(Apply(s, e))
  {
    match e
    case BeginSend(c, gate) => InvBeginSend(s, c, gate);
    case BeginEdit(c, gate) => InvBeginEdit(s, c, gate);
    case HeadAnswer(c, ok) => InvHeadAnswer(s, c, ok);
    case Stop(c, cancelQueued) => InvStop(s, c, cancelQueued);
    case _ => InvTurnEvent(s, e);
  }

  lemma {:induction false} InvRun(s: State, es: seq<Event>)
    requires Inv(s)
    ensures Inv(Run(s, es))
    decreases |es|
  {
    if es != [] {
      InvApply(s, es[0]);
      InvRun(Apply(s, es[0]), es[1..]);
    }
  }

  /** The state after any run from an empty page. */
  function After(es: seq<Event>): State {
    Run(EMPTY, es)
  }

  lemma InvAfter(es: seq<Event>)
    ensures Inv(After(es))
  {
    InvEmpty();
    InvRun(EMPTY, es);
  }

  lemma {:induction false} RunAppend(s: State, es: seq<Event>, fs: seq<Event>)
    ensures Run(s, es + fs) == Run(Run(s, es), fs)
    decreases |es|
  {
    if es == [] {
      assert es + fs == fs;
    } else {
      assert (es + fs)[1..] == es[1..] + fs;
      RunAppend(Apply(s, es[0]), es[1..], fs);
    }
  }
}
