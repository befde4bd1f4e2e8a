/** The primary-model cache of the router (`services/anila-core-router/main.py`):
    `_refresh_primary`, `_ensure_primary` and the gate on chat requests.

    A step is the code between two awaits.  The clock, CSP's answers, the credential file
    (through the token a reload installs) and cancellation come from outside.  */
module PrimaryModel {
  import opened Basics

  const TTL := 60.0

  /** `_primary_state`; an error is present or not. */
  datatype Primary = Primary(name: Option<string>, fetchedAt: real, error: bool)

  /** `Ok(None)`: a 200 without a name, or with an empty one. */
  datatype Answer = Ok(name: Option<string>) | Denied | OtherStatus | Unreachable

  // ---------------------------------------------------------------- the code between awaits

  predicate Current(p: Primary, now: real) {
    p.name.Some? && now - p.fetchedAt < TTL
  }

  /** What one answer does to the state, apart from a second attempt.  `begun` is the time
      the refresh took before its first request. */
  function AfterAnswer(p: Primary, a: Answer, begun: real): Primary {
    if a.Ok? && a.name.Some? then Primary(a.name, begun, false) else Primary(None, begun, true)
  }

  /** After 401 or 403 the credential is reloaded; a second request is sent only for a
      different, non-empty one. */
  predicate Retries(a: Answer, tokenBefore: string, tokenAfter: string) {
    a.Denied? && tokenAfter != "" && tokenAfter != tokenBefore
  }

  /** `_primary_state` and `_service_token`, updated step by step. */
  class Globals {
    var name: Option<string>
    var fetchedAt: real
    var error: bool
    var serviceToken: string

    constructor ()
      ensures State() == Primary(None, 0.0, false) && serviceToken == ""
    {
      name, fetchedAt, error, serviceToken := None, 0.0, false, "";
    }

    function State(): Primary
      reads this
    {
      Primary(name, fetchedAt, error)
    }

    /** Under the lock, up to the first request: true means the request is sent. */
    method BeginRefresh(token: string, now: real) returns (ask: bool)
      modifies this`serviceToken
      ensures serviceToken == token && ask == !Current(State(), now)
    {
      serviceToken := token;
      if name.Some? && now - fetchedAt < TTL {
        return false;
      }
      return true;
    }

    /** The first answer, up to the second request or the end of the refresh. */
    method FirstAnswer(a: Answer, token: string, now: real) returns (again: bool)
      modifies this
      ensures again == Retries(a, old(serviceToken), token)
      ensures serviceToken == if a.Denied? then token else old(serviceToken)
      ensures State() == if again then old(State()) else AfterAnswer(old(State()), a, now)
    {
      match a {
        case Ok(Some(n)) =>
          name := Some(n);
          error := false;
        case Ok(None) =>
          name := None;
          error := true;
        case Denied =>
          var previous := serviceToken;
          serviceToken := token;
          if serviceToken != "" && serviceToken != previous {
            return true;
          }
          name := None;
          error := true;
        case OtherStatus =>
          name := None;
          error := true;
        case Unreachable =>
          name := None;
          error := true;
      }
      fetchedAt := now;
      return false;
    }

    method SecondAnswer(a: Answer, now: real)
      modifies this
      ensures State() == AfterAnswer(old(State()), a, now) && serviceToken == old(serviceToken)
    {
      if a.Ok? && a.name.Some? {
        name := a.name;
        error := false;
      } else {
        name := None;
        error := true;
      }
      fetchedAt := now;
    }

    /** A cancelled refresh runs only the `finally` clause. */
    method Cancelled(now: real)
      modifies this
      ensures State() == old(State()).(fetchedAt := now) && serviceToken == old(serviceToken)
    {
      fetchedAt := now;
    }
  }

  // ---------------------------------------------------------------- concurrent refreshes

  /** `Asking`: a request is under way, sent with `used`; `sent` counts this refresh's
      requests, `begun` is its time stamp. */
  datatype Stage = Waiting | Asking(begun: real, used: string, sent: nat)

  datatype Task = Task(gate: bool, stage: Stage)

  /** History: a chat request that passed the gate.  `okAt` is when the refresh whose 200
      gave the name began, `stamp` what the cache said, `own` whether the request's own
      refresh had just fetched it. */
  datatype Pass = Pass(name: string, at: real, okAt: real, stamp: real, own: bool)

  datatype State = State(
    clock: real, primary: Primary, token: string, holder: Option<nat>, tasks: map<nat, Task>, next: nat,
    okAt: real, requests: nat, passes: seq<Pass>)

  datatype Event =
    | Tick(seconds: real)
    | Watch(token: string)                // the timer reloads the credential file
    | Startup
    | Chat                                // a chat request without a model selection
    | Acquire(t: nat, token: string)
    | Respond(t: nat, answer: Answer, token: string)
    | Cancel(t: nat)

  function Start(clock: real): State {
    State(clock, Primary(None, 0.0, false), "", None, map[], 0, 0.0, 0, [])
  }

  function Spawn(s: State, task: Task): State {
    s.(tasks := s.tasks[s.next := task], next := s.next + 1)
  }

  function Drop(s: State, t: nat): State {
    s.(tasks := s.tasks - {t}, holder := if s.holder == Some(t) then None else s.holder)
  }

  /** The end of `_ensure_primary` in a chat request: a name lets it pass, none is a 503. */
  function Gate(s: State, own: bool): State {
    if s.primary.name.None? then s
    else s.(passes := s.passes + [Pass(s.primary.name.value, s.clock, s.okAt, s.primary.fetchedAt, own)])
  }

  function Resume(s: State, task: Task, own: bool): State {
    if task.gate then Gate(s, own) else s
  }

  function DoChat(s: State): State {
    if s.primary.name.None? || s.clock - s.primary.fetchedAt >= TTL then Spawn(s, Task(true, Waiting)) else Gate(s, false)
  }

  function DoAcquire(s: State, t: nat, token: string): State {
    if t !in s.tasks || !s.tasks[t].stage.Waiting? || s.holder.Some? then s
    else
      var s1 := s.(token := token);
      if Current(s.primary, s.clock) then Resume(Drop(s1, t), s.tasks[t], false)
      else s1.(holder := Some(t), tasks := s.tasks[t := s.tasks[t].(stage := Asking(s.clock, token, 1))],
               requests := s.requests + 1)
  }

  function DoRespond(s: State, t: nat, a: Answer, token: string): State {
    if t !in s.tasks || !s.tasks[t].stage.Asking? then s
    else
      var st := s.tasks[t].stage;
      if st.sent == 1 && Retries(a, s.token, token) then
        s.(token := token, requests := s.requests + 1,
           tasks := s.tasks[t := s.tasks[t].(stage := Asking(st.begun, token, 2))])
      else
        var s1 := s.(token := if st.sent == 1 && a.Denied? then token else s.token,
                     primary := AfterAnswer(s.primary, a, st.begun),
                     okAt := if a.Ok? && a.name.Some? then st.begun else s.okAt);
        Resume(Drop(s1, t), s.tasks[t], a.Ok? && a.name.Some?)
  }

  function DoCancel(s: State, t: nat): State {
    if t !in s.tasks then s
    else if s.tasks[t].stage.Waiting? then Drop(s, t)
    else Drop(s.(primary := s.primary.(fetchedAt := s.tasks[t].stage.begun)), t)
  }

  function Apply(s: State, e: Event): State {
    match e
    case Tick(seconds) => if seconds >= 0.0 then s.(clock := s.clock + seconds) else s
    case Watch(token) => s.(token := token)
    case Startup => Spawn(s, Task(false, Waiting))
    case Chat => DoChat(s)
    case Acquire(t, token) => DoAcquire(s, t, token)
    case Respond(t, answer, token) => DoRespond(s, t, answer, token)
    case Cancel(t) => DoCancel(s, t)
  }

  function Run(s: State, es: seq<Event>): State
    decreases |es|
  {
    if es == [] then s else Run(Apply(s, es[0]), es[1..])
  }

  // ---------------------------------------------------------------- the invariant

  ghost predicate TasksOk(tasks: map<nat, Task>, holder: Option<nat>, next: nat, clock: real) {
    && (forall t | t in tasks :: t < next && (tasks[t].stage.Asking? <==> holder == Some(t)) && StageOk(tasks[t].stage, clock))
    && (holder.Some? ==> holder.value in tasks)
  }

  ghost predicate StageOk(st: Stage, clock: real) {
    st.Asking? ==> st.begun <= clock && 1 <= st.sent <= 2 && (st.sent == 2 ==> st.used != "")
  }

  /** A name always comes with no error and with a 200 whose refresh began earlier. */
  ghost predicate PrimaryOk(p: Primary, okAt: real, clock: real) {
    p.name.Some? ==> !p.error && okAt <= p.fetchedAt <= clock
  }

  ghost predicate PassOk(p: Pass) {
    p.okAt <= p.stamp <= p.at && (if p.own then p.okAt == p.stamp else p.at - p.stamp < TTL)
  }

  /** While a refresh is under way the name, if any, had expired when it began: a refresh asks
      only then, and only this refresh can change the name. */
  ghost predicate HolderOk(s: State) {
    s.holder.Some? && s.holder.value in s.tasks && s.tasks[s.holder.value].stage.Asking? && s.primary.name.Some? ==>
      s.tasks[s.holder.value].stage.begun - s.primary.fetchedAt >= TTL
  }

  ghost predicate Inv(s: State) {
    InvButHolder(s) && HolderOk(s)
  }

  ghost predicate InvButHolder(s: State) {
    && TasksOk(s.tasks, s.holder, s.next, s.clock)
    && PrimaryOk(s.primary, s.okAt, s.clock)
    && forall i | 0 <= i < |s.passes| :: PassOk(s.passes[i])
  }

  lemma InvStart(clock: real)
    ensures Inv(Start(clock))
  {
  }

  lemma InvGate(s: State, own: bool)
    requires Inv(s)
    requires s.primary.name.Some? ==> if own then s.okAt == s.primary.fetchedAt else s.clock - s.primary.fetchedAt < TTL
    ensures Inv(Gate(s, own))
  {
  }

  lemma InvDrop(s: State, t: nat)
    requires InvButHolder(s) && (HolderOk(s) || s.holder == Some(t))
    ensures Inv(Drop(s, t))
  {
  }

  lemma InvAcquire(s: State, t: nat, token: string)
    requires Inv(s)
    ensures Inv(DoAcquire(s, t, token))
  {
    if t in s.tasks && s.tasks[t].stage.Waiting? && s.holder.None? && Current(s.primary, s.clock) {
      var s1 := s.(token := token);
      InvDrop(s1, t);
      InvGate(Drop(s1, t), false);
    }
  }

  lemma InvRespond(s: State, t: nat, a: Answer, token: string)
    requires Inv(s)
    ensures Inv(DoRespond(s, t, a, token))
  {
    if t in s.tasks && s.tasks[t].stage.Asking? {
      var st := s.tasks[t].stage;
      assert StageOk(st, s.clock);
      if !(st.sent == 1 && Retries(a, s.token, token)) {
        var s1 := s.(token := if st.sent == 1 && a.Denied? then token else s.token,
                     primary := AfterAnswer(s.primary, a, st.begun),
                     okAt := if a.Ok? && a.name.Some? then st.begun else s.okAt);
        InvDrop(s1, t);
        InvGate(Drop(s1, t), a.Ok? && a.name.Some?);
      }
    }
  }

  lemma InvCancel(s: State, t: nat)
    requires Inv(s)
    ensures Inv(DoCancel(s, t))
  {
    if t in s.tasks {
      if s.tasks[t].stage.Waiting? {
        InvDrop(s, t);
      } else {
        assert StageOk(s.tasks[t].stage, s.clock);
        InvDrop(s.(primary := s.primary.(fetchedAt := s.tasks[t].stage.begun)), t);
      }
    }
  }

  lemma InvApply(s: State, e: Event)
    requires Inv(s)
    ensures Inv(Apply(s, e))
  {
    match e
    case Tick(_) =>
    case Watch(_) =>
    case Startup =>
    case Chat => if !(s.primary.name.None? || s.clock - s.primary.fetchedAt >= TTL) { InvGate(s, false); }
    case Acquire(t, token) => InvAcquire(s, t, token);
    case Respond(t, answer, token) => InvRespond(s, t, answer, token);
    case Cancel(t) => InvCancel(s, t);
  }

  lemma {:induction false} InvRun(s: State, es: seq<Event>)
    requires Inv(s)
    ensures Inv(Run(s, es))
    decreases |es|
  {
    if es != [] {
      InvApply(s, es[0]);
      InvRun(Apply(s, es[0]), es[1..]);
    }
  }

  function After(clock: real, es: seq<Event>): State {
    Run(Start(clock), es)
  }

  lemma InvAfter(clock: real, es: seq<Event>)
    ensures Inv(After(clock, es))
  {
    InvStart(clock);
    InvRun(Start(clock), es);
  }

  // ---------------------------------------------------------------- the guarantees

  /** A name never stands beside an error. */
  lemma NameMeansNoError(clock: real, es: seq<Event>)
    ensures After(clock, es).primary.name.Some? ==> !After(clock, es).primary.error
  {
    InvAfter(clock, es);
  }

  /** One refresh sends at most two requests, and the second only after 401 or 403 with a
      non-empty token other than the one in memory. */
  lemma AtMostTwoRequests(clock: real, es: seq<Event>, t: nat, a: Answer, token: string)
    requires t in After(clock, es).tasks && After(clock, es).tasks[t].stage.Asking?
    ensures var s := After(clock, es);
            var z := Apply(s, Respond(t, a, token));
            && s.tasks[t].stage.sent <= 2
            && (z.requests > s.requests <==> s.tasks[t].stage.sent == 1 && a.Denied? && token != "" && token != s.token)
            && z.requests <= s.requests + 1
  {
    InvAfter(clock, es);
    assert StageOk(After(clock, es).tasks[t].stage, After(clock, es).clock);
  }

  lemma CurrentStep(s: State, e: Event)
    requires Inv(s) && s.holder.None? && s.primary.name.Some? && Apply(s, e).clock - s.primary.fetchedAt < TTL
    ensures var z := Apply(s, e);
            && s.clock <= z.clock && z.primary == s.primary && z.requests == s.requests && z.holder.None?
  {
  }

  lemma {:induction false} ClockRuns(s: State, es: seq<Event>)
    ensures s.clock <= Run(s, es).clock
    decreases |es|
  {
    if es != [] { ClockRuns(Apply(s, es[0]), es[1..]); }
  }

  /** While a name is current and no refresh is under way, no request is sent and the name
      stays, whoever calls, waits, is cancelled or reloads the credential meanwhile. */
  lemma {:induction false} CurrentNameStays(s: State, es: seq<Event>)
    requires Inv(s) && s.holder.None? && s.primary.name.Some? && Run(s, es).clock - s.primary.fetchedAt < TTL
    ensures Run(s, es).requests == s.requests && Run(s, es).primary == s.primary && Run(s, es).holder.None?
    decreases |es|
  {
    if es != [] {
      ClockRuns(Apply(s, es[0]), es[1..]);
      CurrentStep(s, es[0]);
      InvApply(s, es[0]);
      CurrentNameStays(Apply(s, es[0]), es[1..]);
    }
  }

  /** Callers queued behind a refresh that succeeds send no request, in any order and among
      any other events, until the lifetime counted from its beginning is over. */
  lemma QueuedCallersAskNothing(clock: real, es: seq<Event>, t: nat, name: string, token: string, later: seq<Event>)
    requires var s := After(clock, es);
             && t in s.tasks && s.tasks[t].stage.Asking?
             && Run(Apply(s, Respond(t, Ok(Some(name)), token)), later).clock - s.tasks[t].stage.begun < 60.0
    ensures var s := After(clock, es);
            var z := Run(Apply(s, Respond(t, Ok(Some(name)), token)), later);
            && z.requests == s.requests && z.primary == Primary(Some(name), s.tasks[t].stage.begun, false)
  {
    InvAfter(clock, es);
    var s := After(clock, es);
    var z := Apply(s, Respond(t, Ok(Some(name)), token));
    InvApply(s, Respond(t, Ok(Some(name)), token));
    assert z.holder.None? && z.primary == Primary(Some(name), s.tasks[t].stage.begun, false) && z.requests == s.requests;
    CurrentNameStays(z, later);
  }

  /** A credential rotated while the first request was under way is picked up exactly when
      the reload timer has not installed it first: a token already in memory counts as
      tried, even if the refused request carried the old one. */
  lemma RotationPickedUpIff(s: State, t: nat, rotated: string)
    requires t in s.tasks && s.tasks[t].stage.Asking? && s.tasks[t].stage.sent == 1
    requires rotated != "" && rotated != s.tasks[t].stage.used
    ensures Apply(s, Respond(t, Denied, rotated)).requests == s.requests + 1 <==> s.token != rotated
  {
  }

  lemma RotationMissed()
    ensures var s := After(100.0, [Startup, Acquire(0, "old"), Watch("new"), Respond(0, Denied, "new")]);
            s.requests == 1 && s.primary.name.None? && s.primary.error && s.token == "new"
  {
    var s1 := Apply(Start(100.0), Startup);
    var s2 := Apply(s1, Acquire(0, "old"));
    assert s2.tasks[0].stage == Asking(100.0, "old", 1);
    var s3 := Apply(s2, Watch("new"));
    var s4 := Apply(s3, Respond(0, Denied, "new"));
    assert s4.requests == 1 && s4.primary.name.None?;
    assert Run(s3, [Respond(0, Denied, "new")]) == Run(s4, []);
    assert Run(s2, [Watch("new"), Respond(0, Denied, "new")]) == Run(s3, [Respond(0, Denied, "new")]);
    assert Run(s1, [Acquire(0, "old"), Watch("new"), Respond(0, Denied, "new")]) ==
           Run(s2, [Watch("new"), Respond(0, Denied, "new")]);
  }

  /** Every chat request that passes the gate carries a name from some 200.  It had been
      stamped under 60 seconds before, or this request's own refresh had just fetched it. */
  lemma PassesAreStamped(clock: real, es: seq<Event>, i: nat)
    requires i < |After(clock, es).passes|
    ensures var p := After(clock, es).passes[i];
            p.okAt <= p.at && if p.own then p.okAt == p.stamp else p.at - p.stamp < 60.0
  {
    InvAfter(clock, es);
    assert PassOk(After(clock, es).passes[i]);
  }

  predicate CancelsFetch(s: State, e: Event) {
    e.Cancel? && e.t in s.tasks && s.tasks[e.t].stage.Asking?
  }

  predicate GivesName(s: State, e: Event) {
    e.Respond? && e.t in s.tasks && s.tasks[e.t].stage.Asking? && e.answer.Ok? && e.answer.name.Some?
  }

  predicate CancelledAfter(s: State, e: Event, cancelled: bool) {
    !GivesName(s, e) && (cancelled || CancelsFetch(s, e))
  }

  /** In the run `es` a refresh was cancelled in mid-request after the last 200 with a name. */
  predicate CancelledSince(s: State, es: seq<Event>, cancelled: bool)
    decreases |es|
  {
    if es == [] then cancelled else CancelledSince(Apply(s, es[0]), es[1..], CancelledAfter(s, es[0], cancelled))
  }

  /** The stamp beside a name is the begin time of the refresh that got it, unless a refresh
      was cancelled since: then it is at least a lifetime late. */
  ghost predicate StampTells(s: State, cancelled: bool) {
    s.primary.name.Some? ==>
      if cancelled then s.primary.fetchedAt - s.okAt >= TTL else s.primary.fetchedAt == s.okAt
  }

  lemma StampStep(s: State, e: Event, cancelled: bool)
    requires Inv(s) && StampTells(s, cancelled)
    ensures StampTells(Apply(s, e), CancelledAfter(s, e, cancelled))
  {
  }

  lemma {:induction false} StampRun(s: State, es: seq<Event>, cancelled: bool)
    requires Inv(s) && StampTells(s, cancelled)
    ensures StampTells(Run(s, es), CancelledSince(s, es, cancelled))
    decreases |es|
  {
    if es != [] {
      StampStep(s, es[0], cancelled);
      InvApply(s, es[0]);
      StampRun(Apply(s, es[0]), es[1..], CancelledAfter(s, es[0], cancelled));
    }
  }

  /** In every run the stamp of a name is true iff no refresh was cancelled in mid-request
      since the 200 that gave the name; otherwise it is at least 60 seconds late. */
  lemma StampIsTrueIff(clock: real, es: seq<Event>)
    requires After(clock, es).primary.name.Some?
    ensures var s := After(clock, es);
            && (s.primary.fetchedAt == s.okAt <==> !CancelledSince(Start(clock), es, false))
            && (s.primary.fetchedAt != s.okAt ==> s.primary.fetchedAt - s.okAt >= 60.0)
  {
    InvStart(clock);
    StampRun(Start(clock), es, false);
  }

  /** An event lets at most one request pass, and forgets no earlier pass. */
  lemma PassesGrow(s: State, e: Event)
    ensures var z := Apply(s, e);
            && s.passes <= z.passes && |z.passes| <= |s.passes| + 1
            && (|z.passes| > |s.passes| ==>
                  var p := z.passes[|s.passes|];
                  && p.at == s.clock && z.primary.name == Some(p.name) && p.stamp == z.primary.fetchedAt && p.okAt == z.okAt
                  && (!p.own ==> s.primary == z.primary && s.okAt == z.okAt))
  {
  }

  /** The exact condition for the 60-second promise, read off the run before the request: a
      request that passes without a refresh of its own carries a name from a 200 begun under
      60 seconds before iff no refresh was cancelled in mid-request since that 200. */
  lemma PassIsFreshIff(clock: real, es: seq<Event>, e: Event)
    requires var s := After(clock, es);
             var z := Apply(s, e);
             |z.passes| > |s.passes| && !z.passes[|s.passes|].own
    ensures var p := Apply(After(clock, es), e).passes[|After(clock, es).passes|];
            p.at - p.okAt < 60.0 <==> !CancelledSince(Start(clock), es, false)
  {
    var s := After(clock, es);
    InvAfter(clock, es);
    PassesGrow(s, e);
    InvApply(s, e);
    assert PassOk(Apply(s, e).passes[|s.passes|]);
    StampIsTrueIff(clock, es);
  }

  /** Every pass of a run was made by one of its events. */
  lemma {:induction false} PassMade(s: State, es: seq<Event>, i: nat) returns (k: nat)
    requires |s.passes| <= i < |Run(s, es).passes|
    ensures k < |es| && var z := Run(s, es[..k]);
            && |z.passes| == i && i < |Apply(z, es[k]).passes|
            && Apply(z, es[k]).passes[i] == Run(s, es).passes[i]
    decreases |es|
  {
    PassesGrow(s, es[0]);
    if i < |Apply(s, es[0]).passes| {
      k := 0;
      PassesStay(Apply(s, es[0]), es[1..]);
    } else {
      var j := PassMade(Apply(s, es[0]), es[1..], i);
      k := j + 1;
      assert es[..k][1..] == es[1..][..j];
    }
  }

  lemma {:induction false} PassesStay(s: State, es: seq<Event>)
    ensures s.passes <= Run(s, es).passes
    decreases |es|
  {
    if es != [] {
      PassesGrow(s, es[0]);
      PassesStay(Apply(s, es[0]), es[1..]);
    }
  }

  /** So in every run, for every request that passed: its name came from a 200 begun under 60
      seconds before iff the answer to its own refresh came within 60 seconds, or it had none
      and no refresh was cancelled between that 200 and the pass. */
  lemma EveryPassFreshIff(clock: real, es: seq<Event>, i: nat) returns (k: nat)
    requires i < |After(clock, es).passes|
    ensures k < |es| && |After(clock, es[..k]).passes| == i
    ensures var p := After(clock, es).passes[i];
            p.at - p.okAt < 60.0 <==> if p.own then p.at - p.stamp < 60.0 else !CancelledSince(Start(clock), es[..k], false)
  {
    k := PassMade(Start(clock), es, i);
    InvAfter(clock, es);
    assert PassOk(After(clock, es).passes[i]);
    if !After(clock, es).passes[i].own {
      PassIsFreshIff(clock, es[..k], es[k]);
    }
  }

  lemma CancelledRefreshStamps(s: State)
    requires s.primary.name.Some? && s.holder.None? && s.primary.fetchedAt <= s.clock
    ensures var z := Apply(Apply(Apply(Apply(s, Tick(1000.0)), Startup), Acquire(s.next, "k")), Cancel(s.next));
            && z.primary == s.primary.(fetchedAt := z.clock) && z.clock == s.clock + 1000.0
            && z.okAt == s.okAt && z.passes == s.passes
  {
    var s2 := Apply(Apply(s, Tick(1000.0)), Startup);
    assert s2.tasks[s.next] == Task(false, Waiting) && !Current(s2.primary, s2.clock);
    var s3 := Apply(s2, Acquire(s.next, "k"));
    assert s3.tasks[s.next].stage == Asking(s2.clock, "k", 1);
  }

  /** So the 60-second promise fails after a cancellation.  From any state with a name and
      no refresh under way, let the name expire, begin a refresh and cancel it: the next chat
      request passes at once with a name over 1000 seconds old. */
  lemma CancelledRefreshRevivesName(s: State)
    requires s.primary.name.Some? && s.holder.None? && s.okAt <= s.primary.fetchedAt <= s.clock
    ensures var z := Run(s, [Tick(1000.0), Startup, Acquire(s.next, "k"), Cancel(s.next), Chat]);
            && |z.passes| == |s.passes| + 1
            && z.passes[|s.passes|].name == s.primary.name.value && !z.passes[|s.passes|].own
            && z.passes[|s.passes|].at - z.passes[|s.passes|].okAt >= 1000.0
  {
    CancelledRefreshStamps(s);
    var t := s.next;
    var s1 := Apply(s, Tick(1000.0));
    var s2 := Apply(s1, Startup);
    var s3 := Apply(s2, Acquire(t, "k"));
    var s4 := Apply(s3, Cancel(t));
    assert Run(s4, [Chat]) == Run(Apply(s4, Chat), []);
    assert Run(s3, [Cancel(t), Chat]) == Run(s4, [Chat]);
    assert Run(s2, [Acquire(t, "k"), Cancel(t), Chat]) == Run(s3, [Cancel(t), Chat]);
    assert Run(s1, [Startup, Acquire(t, "k"), Cancel(t), Chat]) == Run(s2, [Acquire(t, "k"), Cancel(t), Chat]);
  }

  /** A request waiting on its own refresh passes however long the answer took: its name is
      under 60 seconds old iff the answer came within 60 seconds. */
  lemma OwnRefreshPassesAtAnyAge(clock: real, es: seq<Event>, t: nat, name: string, token: string)
    requires var s := After(clock, es); t in s.tasks && s.tasks[t].stage.Asking? && s.tasks[t].gate
    ensures var s := After(clock, es);
            var z := Apply(s, Respond(t, Ok(Some(name)), token));
            && |z.passes| == |s.passes| + 1
            && z.passes[|s.passes|] == Pass(name, s.clock, s.tasks[t].stage.begun, s.tasks[t].stage.begun, true)
  {
  }

  // ---------------------------------------------------------------- what answers do

  /** A chat request passes at once exactly with a name stamped under 60 seconds before;
      otherwise it waits for a refresh. */
  lemma ChatPassesIff(s: State)
    ensures var z := Apply(s, Chat);
            if s.primary.name.Some? && s.clock - s.primary.fetchedAt < 60.0
            then z == s.(passes := s.passes + [Pass(s.primary.name.value, s.clock, s.okAt, s.primary.fetchedAt, false)])
            else z == s.(tasks := s.tasks[s.next := Task(true, Waiting)], next := s.next + 1)
  {
  }

  /** The last answer of a refresh decides: a 200 with a name installs it, anything else takes
      the old name away, leaves an error, and turns the waiting request away. */
  lemma LastAnswerDecides(s: State, t: nat, a: Answer, token: string)
    requires t in s.tasks && s.tasks[t].stage.Asking?
    requires s.tasks[t].stage.sent == 2 || a != Denied || token == "" || token == s.token
    ensures var z := Apply(s, Respond(t, a, token));
            && t !in z.tasks && z.primary.fetchedAt == s.tasks[t].stage.begun
            && (if a.Ok? && a.name.Some? then z.primary.name == a.name && !z.primary.error
                else z.primary.name == None && z.primary.error && z.passes == s.passes)
            && (a.Ok? && a.name.Some? ==> |z.passes| == |s.passes| + if s.tasks[t].gate then 1 else 0)
  {
  }

  /** Each request carries the token that reloading has just given. */
  lemma RequestsUseNewToken(s: State, t: nat, a: Answer, token: string)
    requires t in s.tasks
    ensures var z := Apply(s, Acquire(t, token));
            z.requests > s.requests ==> t in z.tasks && z.tasks[t].stage == Asking(s.clock, token, 1) && z.token == token
    ensures var z := Apply(s, Respond(t, a, token));
            z.requests > s.requests ==>
              && t in z.tasks && s.tasks[t].stage.Asking? && z.token == token
              && z.tasks[t].stage == Asking(s.tasks[t].stage.begun, token, 2)
  {
  }
}
