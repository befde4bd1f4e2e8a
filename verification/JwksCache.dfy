/** The JWKS cache shared by concurrent requests
    (`packages/anila-agent-quickstart/platform_io.py`, `JwksCache`).

    `refresh` holds a lock across the fetch; `verify` may call it twice.  A step is the code
    between two awaits; the clock, the answer of a fetch and the verdict of the signature
    check come from outside, and any waiting task may be cancelled.  */
module JwksCache {
  import opened Basics

  const TTL := 300.0
  const REFRESH_AGE := 240.0
  const COOLDOWN := 2.0

  /** Keys by id; `material` stands for the key data. */
  datatype KeySet = KeySet(kids: set<string>, material: nat)

  datatype Cache = Cache(keys: Option<KeySet>, fetchedAt: real, lastForced: real)

  /** What `verify_authorization` does: return claims, raise its own error, or another. */
  datatype Verdict = Claims | Invalid | Broken

  // ---------------------------------------------------------------- the code between awaits

  predicate Fresh(c: Cache, now: real) {
    c.keys.Some? && now - c.fetchedAt < TTL
  }

  /** Under the lock, up to the fetch: an answer at once, or a fetch to await. */
  datatype Decision = Answer(ok: bool) | Fetch

  function Decide(c: Cache, force: bool, now: real): (Decision, Cache) {
    if !force && c.keys.Some? && now - c.fetchedAt < REFRESH_AGE then (Answer(true), c)
    else if force && now - c.lastForced < COOLDOWN then (Answer(Fresh(c, now)), c)
    else (Fetch, if force then c.(lastForced := now) else c)
  }

  function Install(c: Cache, keys: KeySet, now: real): Cache {
    c.(keys := Some(keys), fetchedAt := now)
  }

  datatype Check = NotReady | Accepted | Refused | Retry

  /** `verify` after its first refresh. */
  function FirstCheck(c: Cache, now: real, kid: Option<string>, verdict: Verdict): Check {
    if !Fresh(c, now) then NotReady
    else
      match verdict
      case Claims => Accepted
      case Broken => Refused
      case Invalid => if kid.Some? && kid.value != "" && kid.value !in c.keys.value.kids then Retry else Refused
  }

  /** `verify` after the refresh for an unknown key id. */
  function SecondCheck(c: Cache, kid: string, verdict: Verdict): Check {
    if c.keys.Some? && kid in c.keys.value.kids && verdict.Claims? then Accepted else Refused
  }

  /** The object itself: each method is one stretch of code between awaits. */
  class Store {
    var keys: Option<KeySet>
    var fetchedAt: real
    var lastForced: real

    constructor ()
      ensures State() == Cache(None, 0.0, 0.0)
    {
      keys, fetchedAt, lastForced := None, 0.0, 0.0;
    }

    function State(): Cache
      reads this
    {
      Cache(keys, fetchedAt, lastForced)
    }

    predicate IsFresh(now: real)
      reads this
    {
      if keys.None? then false else now - fetchedAt < TTL
    }

    method BeginRefresh(force: bool, now: real) returns (d: Decision)
      modifies this`lastForced
      ensures (d, State()) == Decide(old(State()), force, now)
    {
      var age := now - fetchedAt;
      if !force && keys.Some? && age < REFRESH_AGE {
        return Answer(true);
      }
      if force && now - lastForced < COOLDOWN {
        return Answer(IsFresh(now));
      }
      if force {
        lastForced := now;
      }
      return Fetch;
    }

    method EndRefresh(fetched: Option<KeySet>, now: real) returns (ok: bool)
      modifies this`keys, this`fetchedAt
      ensures ok == fetched.Some?
      ensures State() == if fetched.Some? then Install(old(State()), fetched.value, now) else old(State())
    {
      if fetched.None? {
        return false;
      }
      keys := fetched;
      fetchedAt := now;
      return true;
    }

    method VerifyFirst(now: real, kid: Option<string>, verdict: Verdict) returns (check: Check)
      ensures check == FirstCheck(State(), now, kid, verdict)
    {
      if !IsFresh(now) || keys.None? {
        return NotReady;
      }
      if verdict.Claims? {
        return Accepted;
      }
      if verdict.Invalid? && kid.Some? && kid.value != "" && kid.value !in keys.value.kids {
        return Retry;
      }
      return Refused;
    }
  }

  // ---------------------------------------------------------------- concurrent tasks

  /** Who awaits a refresh.  `begun` is the number of installs when `verify` was called,
      `seen` when it found the key id missing. */
  datatype Caller =
    | Plain
    | First(kid: Option<string>, begun: nat)
    | Second(missing: string, begun: nat, seen: nat)

  datatype Stage = Waiting | Fetching

  datatype Task = Task(caller: Caller, force: bool, stage: Stage)

  /** History: a fetch begun, keys installed, a token accepted. */
  datatype Begun = Begun(at: real, force: bool)
  datatype Installed = Installed(keys: KeySet, at: real)
  datatype Pass = Pass(keys: KeySet, at: real, install: nat, begun: nat)

  datatype State = State(
    configured: bool, clock: real, cache: Cache, holder: Option<nat>, tasks: map<nat, Task>, next: nat,
    fetches: seq<Begun>, installs: seq<Installed>, passes: seq<Pass>, orphans: nat)

  datatype Event =
    | Tick(seconds: real)
    | CallRefresh(force: bool)
    | CallVerify(kid: Option<string>, verdict: Verdict)
    | Acquire(t: nat, verdict: Verdict)
    | FetchEnds(t: nat, keys: Option<KeySet>, verdict: Verdict)
    | Cancel(t: nat)
    | OrphanEnds

  function Start(configured: bool, clock: real): State {
    State(configured, clock, Cache(None, 0.0, 0.0), None, map[], 0, [], [], [], 0)
  }

  function Spawn(s: State, task: Task): State {
    s.(tasks := s.tasks[s.next := task], next := s.next + 1)
  }

  function Accept(s: State, begun: nat): State
    requires s.cache.keys.Some?
  {
    s.(passes := s.passes + [Pass(s.cache.keys.value, s.clock, |s.installs|, begun)])
  }

  /** `verify` from its first check on. */
  function CheckFirst(s: State, kid: Option<string>, begun: nat, verdict: Verdict): State {
    match FirstCheck(s.cache, s.clock, kid, verdict)
    case NotReady => s
    case Refused => s
    case Accepted => Accept(s, begun)
    case Retry => if s.configured then Spawn(s, Task(Second(kid.value, begun, |s.installs|), true, Waiting)) else s
  }

  /** The awaiting caller goes on, in the same step. */
  function Resume(s: State, caller: Caller, verdict: Verdict): State {
    match caller
    case Plain => s
    case First(kid, begun) => CheckFirst(s, kid, begun, verdict)
    case Second(kid, begun, _) =>
      if SecondCheck(s.cache, kid, verdict).Accepted? then Accept(s, begun) else s
  }

  function Drop(s: State, t: nat): State {
    s.(tasks := s.tasks - {t}, holder := if s.holder == Some(t) then None else s.holder)
  }

  function DoAcquire(s: State, t: nat, verdict: Verdict): State {
    if t !in s.tasks || !s.tasks[t].stage.Waiting? || s.holder.Some? then s
    else
      var task := s.tasks[t];
      var (d, cache) := Decide(s.cache, task.force, s.clock);
      if d.Answer? then Resume(Drop(s, t), task.caller, verdict)
      else s.(cache := cache, holder := Some(t), tasks := s.tasks[t := task.(stage := Fetching)],
              fetches := s.fetches + [Begun(s.clock, task.force)])
  }

  function DoFetchEnds(s: State, t: nat, keys: Option<KeySet>, verdict: Verdict): State {
    if t !in s.tasks || !s.tasks[t].stage.Fetching? then s
    else
      var s1 := if keys.None? then s
                else s.(cache := Install(s.cache, keys.value, s.clock), installs := s.installs + [Installed(keys.value, s.clock)]);
      Resume(Drop(s1, t), s.tasks[t].caller, verdict)
  }

  /** A cancelled task leaves the lock; its fetch goes on in a thread nobody awaits. */
  function DoCancel(s: State, t: nat): State {
    if t !in s.tasks then s
    else Drop(s, t).(orphans := s.orphans + if s.tasks[t].stage.Fetching? then 1 else 0)
  }

  function Apply(s: State, e: Event): State {
    match e
    case Tick(seconds) => if seconds >= 0.0 then s.(clock := s.clock + seconds) else s
    case CallRefresh(force) => if s.configured then Spawn(s, Task(Plain, force, Waiting)) else s
    case CallVerify(kid, verdict) =>
      if Fresh(s.cache, s.clock) || !s.configured then CheckFirst(s, kid, |s.installs|, verdict)
      else Spawn(s, Task(First(kid, |s.installs|), true, Waiting))
    case Acquire(t, verdict) => DoAcquire(s, t, verdict)
    case FetchEnds(t, keys, verdict) => DoFetchEnds(s, t, keys, verdict)
    case Cancel(t) => DoCancel(s, t)
    case OrphanEnds => if s.orphans > 0 then s.(orphans := s.orphans - 1) else s
  }

  function Run(s: State, es: seq<Event>): State
    decreases |es|
  {
    if es == [] then s else Run(Apply(s, es[0]), es[1..])
  }

  // ---------------------------------------------------------------- the invariant

  /** The cache is exactly the last install: one fetch's keys with that fetch's time. */
  ghost predicate CacheOk(cache: Cache, installs: seq<Installed>, clock: real) {
    && (cache.keys.Some? <==> installs != [])
    && (installs != [] ==> cache.keys.value == installs[|installs| - 1].keys && cache.fetchedAt == installs[|installs| - 1].at)
    && (forall i | 0 <= i < |installs| :: installs[i].at <= clock)
  }

  ghost predicate ForcedApart(fetches: seq<Begun>) {
    forall i, j | 0 <= i < j < |fetches| && fetches[i].force && fetches[j].force :: fetches[j].at - fetches[i].at >= COOLDOWN
  }

  ghost predicate FetchesOk(fetches: seq<Begun>, lastForced: real, clock: real) {
    && ForcedApart(fetches)
    && (forall i | 0 <= i < |fetches| :: fetches[i].at <= clock && (fetches[i].force ==> fetches[i].at <= lastForced))
  }

  ghost predicate PassOk(p: Pass, installs: seq<Installed>) {
    && 0 < p.install <= |installs| && p.keys == installs[p.install - 1].keys && p.begun <= p.install
    && (p.at - installs[p.install - 1].at < TTL || p.begun < p.install)
  }

  ghost predicate CallerOk(c: Caller, cache: Cache, n: nat) {
    match c
    case Plain => true
    case First(_, begun) => begun <= n
    case Second(kid, begun, seen) => begun <= seen <= n && (seen == n ==> cache.keys.Some? && kid !in cache.keys.value.kids)
  }

  ghost predicate TasksOk(tasks: map<nat, Task>, holder: Option<nat>, next: nat, cache: Cache, n: nat) {
    && (forall t | t in tasks :: t < next && (tasks[t].stage.Fetching? <==> holder == Some(t)) && CallerOk(tasks[t].caller, cache, n))
    && (holder.Some? ==> holder.value in tasks)
  }

  ghost predicate Inv(s: State) {
    && CacheOk(s.cache, s.installs, s.clock)
    && FetchesOk(s.fetches, s.cache.lastForced, s.clock)
    && (forall i | 0 <= i < |s.passes| :: PassOk(s.passes[i], s.installs))
    && TasksOk(s.tasks, s.holder, s.next, s.cache, |s.installs|)
  }

  lemma InvStart(configured: bool, clock: real)
    ensures Inv(Start(configured, clock))
  {
  }

  lemma InvSpawn(s: State, task: Task)
    requires Inv(s) && task.stage.Waiting? && CallerOk(task.caller, s.cache, |s.installs|)
    ensures Inv(Spawn(s, task))
  {
  }

  lemma InvAccept(s: State, begun: nat)
    requires Inv(s) && s.cache.keys.Some? && begun <= |s.installs|
    requires Fresh(s.cache, s.clock) || begun < |s.installs|
    ensures Inv(Accept(s, begun))
  {
  }

  lemma InvCheckFirst(s: State, kid: Option<string>, begun: nat, verdict: Verdict)
    requires Inv(s) && begun <= |s.installs|
    ensures Inv(CheckFirst(s, kid, begun, verdict))
  {
    match FirstCheck(s.cache, s.clock, kid, verdict)
    case NotReady =>
    case Refused =>
    case Accepted => InvAccept(s, begun);
    case Retry => InvSpawn(s, Task(Second(kid.value, begun, |s.installs|), true, Waiting));
  }

  lemma InvResume(s: State, caller: Caller, verdict: Verdict)
    requires Inv(s) && CallerOk(caller, s.cache, |s.installs|)
    ensures Inv(Resume(s, caller, verdict))
  {
    match caller
    case Plain =>
    case First(kid, begun) => InvCheckFirst(s, kid, begun, verdict);
    case Second(kid, begun, seen) =>
      if SecondCheck(s.cache, kid, verdict).Accepted? { InvAccept(s, begun); }
  }

  lemma InvDrop(s: State, t: nat)
    requires Inv(s) && t in s.tasks
    ensures Inv(Drop(s, t))
  {
  }

  lemma InvAcquire(s: State, t: nat, verdict: Verdict)
    requires Inv(s)
    ensures Inv(DoAcquire(s, t, verdict))
  {
    if t in s.tasks && s.tasks[t].stage.Waiting? && s.holder.None? {
      if Decide(s.cache, s.tasks[t].force, s.clock).0.Answer? {
        InvDrop(s, t);
        InvResume(Drop(s, t), s.tasks[t].caller, verdict);
      } else {
        BeginFetch(s, t);
      }
    }
  }

  lemma BeginFetch(s: State, t: nat)
    requires Inv(s) && t in s.tasks && s.tasks[t].stage.Waiting? && s.holder.None?
    requires Decide(s.cache, s.tasks[t].force, s.clock).0.Fetch?
    ensures Inv(DoAcquire(s, t, Claims))
    ensures forall v :: DoAcquire(s, t, v) == DoAcquire(s, t, Claims)
  {
    var z := DoAcquire(s, t, Claims);
    assert CacheOk(z.cache, z.installs, z.clock);
    assert FetchesOk(z.fetches, z.cache.lastForced, z.clock);
    forall i | i in z.tasks
      ensures CallerOk(z.tasks[i].caller, z.cache, |z.installs|)
    {
      assert CallerOk(s.tasks[i].caller, s.cache, |s.installs|);
    }
  }

  lemma InstallKeeps(s: State, keys: KeySet)
    requires Inv(s)
    ensures Inv(s.(cache := Install(s.cache, keys, s.clock), installs := s.installs + [Installed(keys, s.clock)]))
  {
    var z := s.(cache := Install(s.cache, keys, s.clock), installs := s.installs + [Installed(keys, s.clock)]);
    forall i | 0 <= i < |s.passes|
      ensures PassOk(z.passes[i], z.installs)
    {
      assert PassOk(s.passes[i], s.installs);
    }
    forall i | i in z.tasks
      ensures CallerOk(z.tasks[i].caller, z.cache, |z.installs|)
    {
      assert CallerOk(s.tasks[i].caller, s.cache, |s.installs|);
    }
  }

  lemma InvFetchEnds(s: State, t: nat, keys: Option<KeySet>, verdict: Verdict)
    requires Inv(s)
    ensures Inv(DoFetchEnds(s, t, keys, verdict))
  {
    if t in s.tasks && s.tasks[t].stage.Fetching? {
      var s1 := s;
      if keys.Some? {
        InstallKeeps(s, keys.value);
        s1 := s.(cache := Install(s.cache, keys.value, s.clock), installs := s.installs + [Installed(keys.value, s.clock)]);
      }
      assert CallerOk(s1.tasks[t].caller, s1.cache, |s1.installs|);
      InvDrop(s1, t);
      InvResume(Drop(s1, t), s.tasks[t].caller, verdict);
    }
  }

  lemma InvApply(s: State, e: Event)
    requires Inv(s)
    ensures Inv(Apply(s, e))
  {
    match e
    case Tick(_) =>
    case CallRefresh(force) => if s.configured { InvSpawn(s, Task(Plain, force, Waiting)); }
    case CallVerify(kid, verdict) =>
      InvCheckFirst(s, kid, |s.installs|, verdict);
      InvSpawn(s, Task(First(kid, |s.installs|), true, Waiting));
    case Acquire(t, verdict) => InvAcquire(s, t, verdict);
    case FetchEnds(t, keys, verdict) => InvFetchEnds(s, t, keys, verdict);
    case Cancel(t) => if t in s.tasks { InvDrop(s, t); }
    case OrphanEnds =>
  }

  lemma {:induction false} InvRun(s: State, es: seq<Event>)
    requires Inv(s)
    ensures Inv(Run(s, es))
    decreases |es|
  {
    if es != [] {
      InvApply(s, es[0]);
      InvRun(Apply(s, es[0]), es[1..]);
    }
  }

  function After(configured: bool, clock: real, es: seq<Event>): State {
    Run(Start(configured, clock), es)
  }

  lemma InvAfter(configured: bool, clock: real, es: seq<Event>)
    ensures Inv(After(configured, clock, es))
  {
    InvStart(configured, clock);
    InvRun(Start(configured, clock), es);
  }

  // ---------------------------------------------------------------- the guarantees

  /** Keys and timestamp always come together from one successful fetch, the latest. */
  lemma KeysFromOneFetch(configured: bool, clock: real, es: seq<Event>)
    ensures var s := After(configured, clock, es);
            var n := |s.installs|;
            if n == 0 then s.cache.keys.None?
            else s.cache.keys == Some(s.installs[n - 1].keys) && s.cache.fetchedAt == s.installs[n - 1].at
  {
    InvAfter(configured, clock, es);
  }

  /** Only a successful fetch changes what is cached: a failed or cancelled one, a refused
      token or a skipped refresh leaves keys and timestamp alone. */
  lemma OnlySuccessInstalls(s: State, e: Event)
    ensures var z := Apply(s, e);
            if e.FetchEnds? && e.keys.Some? && e.t in s.tasks && s.tasks[e.t].stage.Fetching?
            then z.installs == s.installs + [Installed(e.keys.value, s.clock)]
            else z.installs == s.installs && z.cache.keys == s.cache.keys && z.cache.fetchedAt == s.cache.fetchedAt
  {
  }

  /** Forced fetches start at least two seconds apart, whoever asks. */
  lemma ForcedFetchesApart(configured: bool, clock: real, es: seq<Event>, i: nat, j: nat)
    requires var f := After(configured, clock, es).fetches; i < j < |f| && f[i].force && f[j].force
    ensures var f := After(configured, clock, es).fetches; f[j].at - f[i].at >= 2.0
  {
    InvAfter(configured, clock, es);
  }

  /** At most one fetch is awaited, by the holder of the lock. */
  lemma OneAwaitedFetch(configured: bool, clock: real, es: seq<Event>, t: nat, v: nat)
    requires var s := After(configured, clock, es);
             t in s.tasks && v in s.tasks && s.tasks[t].stage.Fetching? && s.tasks[v].stage.Fetching?
    ensures t == v && After(configured, clock, es).holder == Some(t)
  {
    InvAfter(configured, clock, es);
  }

  /** Fetches under way, awaited or not. */
  function Underway(s: State): nat {
    s.orphans + if s.holder.Some? then 1 else 0
  }

  predicate CancelsFetch(s: State, e: Event) {
    e.Cancel? && e.t in s.tasks && s.tasks[e.t].stage.Fetching?
  }

  /** How many fetches were cancelled in a run. */
  function FetchesCancelled(s: State, es: seq<Event>): nat
    decreases |es|
  {
    if es == [] then 0 else (if CancelsFetch(s, es[0]) then 1 else 0) + FetchesCancelled(Apply(s, es[0]), es[1..])
  }

  /** How many threads of cancelled fetches ended in a run. */
  function ThreadsEnded(s: State, es: seq<Event>): nat
    decreases |es|
  {
    if es == [] then 0
    else (if es[0].OrphanEnds? && s.orphans > 0 then 1 else 0) + ThreadsEnded(Apply(s, es[0]), es[1..])
  }

  lemma OrphanStep(s: State, e: Event)
    ensures Apply(s, e).orphans + (if e.OrphanEnds? && s.orphans > 0 then 1 else 0) ==
            s.orphans + if CancelsFetch(s, e) then 1 else 0
  {
  }

  /** The fetches nobody awaits are exactly the cancelled ones whose thread has not ended. */
  lemma {:induction false} OrphansAre(s: State, es: seq<Event>)
    ensures Run(s, es).orphans + ThreadsEnded(s, es) == s.orphans + FetchesCancelled(s, es)
    decreases |es|
  {
    if es != [] {
      OrphanStep(s, es[0]);
      OrphansAre(Apply(s, es[0]), es[1..]);
    }
  }

  /** So two fetches run at once only if a fetch was cancelled: its thread goes on. */
  lemma OneFetchUnlessCancelled(configured: bool, clock: real, es: seq<Event>)
    ensures Underway(After(configured, clock, es)) <= 1 + FetchesCancelled(Start(configured, clock), es)
  {
    OrphansAre(Start(configured, clock), es);
  }

  /** The exact condition, in every run: at most one fetch is under way iff every cancelled
      fetch has ended, or all but one have and no task is fetching. */
  lemma AtMostOneFetchIff(configured: bool, clock: real, es: seq<Event>)
    ensures var s := After(configured, clock, es);
            var running := FetchesCancelled(Start(configured, clock), es) - ThreadsEnded(Start(configured, clock), es);
            Underway(s) <= 1 <==>
              running == 0 || (running == 1 && forall t | t in s.tasks :: !s.tasks[t].stage.Fetching?)
  {
    InvAfter(configured, clock, es);
    OrphansAre(Start(configured, clock), es);
  }

  /** A task that begins a fetch is alone iff every fetch cancelled so far has ended. */
  lemma OnlyFetchIff(configured: bool, clock: real, es: seq<Event>, t: nat)
    requires var s := After(configured, clock, es);
             t in s.tasks && s.tasks[t].stage.Waiting? && s.holder.None? && Decide(s.cache, s.tasks[t].force, s.clock).0.Fetch?
    ensures Underway(Apply(After(configured, clock, es), Acquire(t, Claims))) == 1 <==>
              FetchesCancelled(Start(configured, clock), es) == ThreadsEnded(Start(configured, clock), es)
  {
    OrphansAre(Start(configured, clock), es);
  }

  /** Cancelling breaks the promise wherever a fetch is under way: once the keys are due for
      a refresh, the next caller starts a second fetch beside the first. */
  lemma CancelledFetchOverlaps(s: State, t: nat)
    requires Inv(s) && s.configured && t in s.tasks && s.tasks[t].stage.Fetching?
    ensures Underway(Run(s, [Cancel(t), Tick(300.0), CallRefresh(false), Acquire(s.next, Claims)])) >= 2
  {
    var s1 := Apply(s, Cancel(t));
    var s2 := Apply(s1, Tick(300.0));
    var s3 := Apply(s2, CallRefresh(false));
    assert s3.tasks[s.next] == Task(Plain, false, Waiting) && s3.holder.None?;
    assert s3.orphans >= 1 && Decide(s3.cache, false, s3.clock).0.Fetch?;
    var s4 := Apply(s3, Acquire(s.next, Claims));
    assert Run(s3, [Acquire(s.next, Claims)]) == Run(s4, []);
    assert Run(s2, [CallRefresh(false), Acquire(s.next, Claims)]) == Run(s3, [Acquire(s.next, Claims)]);
    assert Run(s1, [Tick(300.0), CallRefresh(false), Acquire(s.next, Claims)]) ==
           Run(s2, [CallRefresh(false), Acquire(s.next, Claims)]);
  }

  /** And a fetch can be under way: the first caller of a configured cache starts one. */
  lemma FirstCallFetches(clock: real)
    ensures var s := After(true, clock, [CallRefresh(false), Acquire(0, Claims)]);
            Inv(s) && s.configured && 0 in s.tasks && s.tasks[0].stage.Fetching?
  {
    InvAfter(true, clock, [CallRefresh(false), Acquire(0, Claims)]);
    var s1 := Apply(Start(true, clock), CallRefresh(false));
    assert Run(s1, [Acquire(0, Claims)]) == Run(Apply(s1, Acquire(0, Claims)), []);
  }

  /** A token is accepted only with the keys cached at that moment, and these were fresh at
      the check or installed after that call of `verify` began. */
  lemma AcceptedKeysAreCurrent(configured: bool, clock: real, es: seq<Event>, i: nat)
    requires i < |After(configured, clock, es).passes|
    ensures var s := After(configured, clock, es);
            var p := s.passes[i];
            && 0 < p.install <= |s.installs| && p.keys == s.installs[p.install - 1].keys
            && (p.at - s.installs[p.install - 1].at < 300.0 || p.begun < p.install)
  {
    InvAfter(configured, clock, es);
    assert PassOk(After(configured, clock, es).passes[i], After(configured, clock, es).installs);
  }

  // ---------------------------------------------------------------- who gets in

  /** The verdict an event brings, if the signature can be checked in it. */
  function VerdictOf(e: Event): Option<Verdict> {
    match e
    case CallVerify(_, verdict) => Some(verdict)
    case Acquire(_, verdict) => Some(verdict)
    case FetchEnds(_, _, verdict) => Some(verdict)
    case _ => None
  }

  lemma ResumeNeedsClaims(s: State, caller: Caller, verdict: Verdict)
    ensures var z := Resume(s, caller, verdict);
            && s.passes <= z.passes && |z.passes| <= |s.passes| + 1
            && (|z.passes| > |s.passes| ==> verdict.Claims?)
  {
  }

  /** An event accepts at most one token, and only when the signature check returns claims. */
  lemma PassNeedsClaims(s: State, e: Event)
    ensures var z := Apply(s, e);
            && s.passes <= z.passes && |z.passes| <= |s.passes| + 1
            && (|z.passes| > |s.passes| ==> VerdictOf(e) == Some(Claims))
  {
    match e
    case Acquire(t, verdict) =>
      if t in s.tasks { ResumeNeedsClaims(Drop(s, t), s.tasks[t].caller, verdict); }
    case FetchEnds(t, keys, verdict) =>
      if t in s.tasks && keys.None? { ResumeNeedsClaims(Drop(s, t), s.tasks[t].caller, verdict); }
      if t in s.tasks && keys.Some? {
        var s1 := s.(cache := Install(s.cache, keys.value, s.clock), installs := s.installs + [Installed(keys.value, s.clock)]);
        ResumeNeedsClaims(Drop(s1, t), s.tasks[t].caller, verdict);
      }
    case _ =>
  }

  /** So in every run each accepted token was accepted by an event with that verdict. */
  lemma {:induction false} EveryPassHasClaims(s: State, es: seq<Event>, i: nat) returns (k: nat)
    requires |s.passes| <= i < |Run(s, es).passes|
    ensures k < |es| && |Run(s, es[..k]).passes| == i && VerdictOf(es[k]) == Some(Claims)
    decreases |es|
  {
    PassNeedsClaims(s, es[0]);
    if i < |Apply(s, es[0]).passes| {
      k := 0;
    } else {
      var j := EveryPassHasClaims(Apply(s, es[0]), es[1..], i);
      k := j + 1;
      assert es[..k][1..] == es[1..][..j];
    }
  }

  ghost predicate KeysFresh(s: State) {
    s.cache.keys.Some? && s.clock - s.cache.fetchedAt < 300.0
  }

  /** On fresh keys a token whose signature verifies is accepted at once. */
  lemma ValidTokenPasses(s: State, kid: Option<string>)
    requires KeysFresh(s)
    ensures Apply(s, CallVerify(kid, Claims)) ==
              s.(passes := s.passes + [Pass(s.cache.keys.value, s.clock, |s.installs|, |s.installs|)])
  {
  }

  /** On fresh keys a token that does not verify is retried with new keys exactly when it names
      a key that is not cached; otherwise, and when the check breaks, nothing happens. */
  lemma RetryIff(s: State, kid: Option<string>, verdict: Verdict)
    requires KeysFresh(s) && s.configured && !verdict.Claims?
    ensures var z := Apply(s, CallVerify(kid, verdict));
            if verdict.Invalid? && kid.Some? && kid.value != "" && kid.value !in s.cache.keys.value.kids
            then z == s.(tasks := s.tasks[s.next := Task(Second(kid.value, |s.installs|, |s.installs|), true, Waiting)],
                         next := s.next + 1)
            else z == s
  {
  }

  /** Without fresh keys a call waits for a forced refresh first. */
  lemma StaleCallWaits(s: State, kid: Option<string>, verdict: Verdict)
    requires !KeysFresh(s) && s.configured
    ensures Apply(s, CallVerify(kid, verdict)) ==
              s.(tasks := s.tasks[s.next := Task(First(kid, |s.installs|), true, Waiting)], next := s.next + 1)
  {
  }

  /** Without an address nothing is ever fetched, and a call without fresh keys is refused. */
  lemma UnconfiguredIsRefused(s: State, kid: Option<string>, verdict: Verdict, force: bool)
    requires !KeysFresh(s) && !s.configured
    ensures Apply(s, CallVerify(kid, verdict)) == s && Apply(s, CallRefresh(force)) == s
  {
  }

  /** When its fetch succeeds the waiting call is decided on the new keys: a token that verifies
      is accepted, after a retry only if the key it names is among them. */
  lemma FetchDecides(s: State, t: nat, keys: KeySet, verdict: Verdict)
    requires t in s.tasks && s.tasks[t].stage.Fetching?
    ensures var z := Apply(s, FetchEnds(t, Some(keys), verdict));
            var pass := Pass(keys, s.clock, |s.installs| + 1, if s.tasks[t].caller.Plain? then 0 else s.tasks[t].caller.begun);
            var accepted := match s.tasks[t].caller
                            case Plain => false
                            case First(_, _) => verdict.Claims?
                            case Second(missing, _, _) => verdict.Claims? && missing in keys.kids;
            z.passes == if accepted then s.passes + [pass] else s.passes
  {
  }

  /** The same when the lock is free and no fetch is due by then. */
  lemma AcquireDecides(s: State, t: nat, verdict: Verdict)
    requires t in s.tasks && s.tasks[t].stage.Waiting? && s.holder.None?
    requires Apply(s, Acquire(t, verdict)).fetches == s.fetches
    ensures var caller := s.tasks[t].caller;
            var accepted := match caller
                            case Plain => false
                            case First(_, _) => KeysFresh(s) && verdict.Claims?
                            case Second(missing, _, _) =>
                              s.cache.keys.Some? && missing in s.cache.keys.value.kids && verdict.Claims?;
            |Apply(s, Acquire(t, verdict)).passes| == |s.passes| + if accepted then 1 else 0
  {
  }

  /** A refresh that fetches nothing answers whether the keys are fresh. */
  lemma RefreshTellsTruth(c: Cache, force: bool, now: real)
    requires Decide(c, force, now).0.Answer?
    ensures Decide(c, force, now).0.ok <==> c.keys.Some? && now - c.fetchedAt < 300.0
    ensures Decide(c, force, now).1 == c
  {
  }

  /** When its fetch fails, a call that began without fresh keys is refused. */
  lemma FailedFetchRefuses(s: State, t: nat, verdict: Verdict)
    requires t in s.tasks && s.tasks[t].stage.Fetching? && s.tasks[t].caller.First? && !KeysFresh(s)
    ensures Apply(s, FetchEnds(t, None, verdict)).passes == s.passes
  {
  }

  /** When a caller that gets the lock starts a fetch: unforced, without keys or when they are
      240 seconds old; forced, 2 seconds after the last forced one. */
  lemma FetchesIff(s: State, t: nat, verdict: Verdict)
    requires t in s.tasks && s.tasks[t].stage.Waiting? && s.holder.None?
    ensures Apply(s, Acquire(t, verdict)).fetches ==
              if (if s.tasks[t].force then s.clock - s.cache.lastForced >= 2.0
                  else s.cache.keys.None? || s.clock - s.cache.fetchedAt >= 240.0)
              then s.fetches + [Begun(s.clock, s.tasks[t].force)] else s.fetches
  {
  }
}
