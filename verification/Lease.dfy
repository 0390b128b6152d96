/** Time: a claim is a lease.  On one shared clock, with every store call bounded, a run always
    ends before its claim can go stale, so no claim ever overruns. */
module Lease {
  import opened Tables
  import W = Processor
  import opened System
  import opened Invariant
  import opened Guarantees

  const TOKEN_WAIT_MS := 2000
  const CALL_MS := 6000

  /** Three calls, the back-offs of 200, 600 and 1400 ms and, with a limiter, three token waits. */
  function RunMs(cfg: Config): nat {
    if cfg.worker.hasLimiter then 26_200 else 20_200
  }

  /** A claim outlives the longest run, if a store call takes at most `d`. */
  predicate LeaseFits(cfg: Config, d: nat) {
    RunMs(cfg) + 5 * d <= W.StaleAfter(cfg.worker)
  }

  /** The longest a worker stays at one point of its run, if a store call takes at most `d`. */
  function MaxStay(d: nat, pc: W.Pc): nat {
    match pc
    case Limiting(_, _, _) => TOKEN_WAIT_MS
    case Calling(_, _, _) => CALL_MS
    case Napping(_, ms, _, _) => if ms < 0 then 0 else ms
    case _ => d
  }

  predicate Leased(pc: W.Pc) {
    pc.Claiming? || Holding(pc)
  }

  /** `since[w]`: when worker `w` got to where it stands. */
  datatype Timed = Timed(s: Sys, clock: int, since: map<nat, int>)

  datatype TimedEvent = Tick(ms: nat) | Do(event: Event)

  /** Time passes only while everyone keeps to their bound; a claim carries a time read from the
      shared clock between reading the row and the claim statement. */
  ghost predicate Allowed(d: nat, x: Timed, e: TimedEvent) {
    match e
    case Tick(ms) =>
      forall w <- x.s.workers :: w in x.since && Leased(x.s.workers[w].pc) ==>
        x.clock + ms - x.since[w] <= MaxStay(d, x.s.workers[w].pc)
    case Do(event) =>
      event.WorkStep? && event.w in x.s.workers && event.w in x.since && x.s.workers[event.w].pc.Claiming? ==>
        x.since[event.w] <= event.choice.now <= x.clock
  }

  function Since(x: Timed, e: Event): map<nat, int> {
    match e
    case Deliver(w, _) => if w in x.s.workers then x.since else x.since[w := x.clock]
    case WorkStep(w, _) => x.since[w := x.clock]
    case _ => x.since
  }

  ghost function Step(cfg: Config, d: nat, x: Timed, e: TimedEvent): Timed {
    if !Allowed(d, x, e) then x else
    match e
    case Tick(ms) => x.(clock := x.clock + ms)
    case Do(event) => Timed(Apply(cfg, x.s, event), x.clock, Since(x, event))
  }

  ghost function TimedRun(cfg: Config, d: nat, x: Timed, es: seq<TimedEvent>): Timed
    decreases |es|
  {
    if es == [] then x else TimedRun(cfg, d, Step(cfg, d, x, es[0]), es[1..])
  }

  // ----- how much of a run can be over

  function TokenWait(cfg: W.Config): nat {
    if cfg.hasLimiter then TOKEN_WAIT_MS else 0
  }

  /** The time from a claim to the start of attempt `n`, at most. */
  function Base(cfg: W.Config, d: nat, n: nat): nat {
    if n == 0 then d else Base(cfg, d, n - 1) + TokenWait(cfg) + CALL_MS + d + W.Backoff(n - 1)
  }

  /** The time from a claim to reaching `pc`, at most. */
  function Spent(cfg: W.Config, d: nat, pc: W.Pc): nat {
    match pc
    case Limiting(n, _, _) => Base(cfg, d, n)
    case Calling(n, _, _) => Base(cfg, d, n) + TokenWait(cfg)
    case RecordingOk(_, _) => Base(cfg, d, 2) + TokenWait(cfg) + CALL_MS
    case Finishing(_) => Base(cfg, d, 2) + TokenWait(cfg) + CALL_MS + d
    case RecordingError(n, _, _, _, _) => Base(cfg, d, n) + TokenWait(cfg) + CALL_MS
    case Napping(n, _, _, _) => Base(cfg, d, n) + TokenWait(cfg) + CALL_MS + d
    case GivingUp(_) => Base(cfg, d, 3)
    case _ => d
  }

  predicate InRange(cfg: W.Config, pc: W.Pc) {
    match pc
    case Limiting(n, _, _) => n < 3 && cfg.hasLimiter
    case Calling(n, _, _) => n < 3
    case RecordingError(n, _, _, _, _) => n < 3
    case Napping(n, ms, _, _) => n < 3 && 0 <= ms <= W.Backoff(n)
    case _ => true
  }

  lemma Bases(cfg: W.Config, d: nat)
    ensures var w := TokenWait(cfg);
            && Base(cfg, d, 0) == d
            && Base(cfg, d, 1) == 6200 + w + 2 * d
            && Base(cfg, d, 2) == 12_800 + 2 * w + 3 * d
            && Base(cfg, d, 3) == 20_200 + 3 * w + 4 * d
  {
    var w := TokenWait(cfg);
    assert Base(cfg, d, 1) == Base(cfg, d, 0) + w + 6000 + d + 200;
    assert Base(cfg, d, 2) == Base(cfg, d, 1) + w + 6000 + d + 600;
    assert Base(cfg, d, 3) == Base(cfg, d, 2) + w + 6000 + d + 1400;
  }

  /** Wherever a claimed run stands, what is accounted for and the longest stay there fit into the bound. */
  lemma StandBound(cfg: Config, d: nat, pc: W.Pc)
    requires Holding(pc) && InRange(cfg.worker, pc)
    ensures Spent(cfg.worker, d, pc) + MaxStay(d, pc) <= RunMs(cfg) + 5 * d
  {
    Bases(cfg.worker, d);
  }

  /** Each step of a claimed run stays within the time accounted for. */
  lemma StepBound(cfg: W.Config, d: nat, pc: W.Pc, a: W.Answer)
    requires Holding(pc) && InRange(cfg, pc) && Holding(W.Next(cfg, pc, a))
    ensures InRange(cfg, W.Next(cfg, pc, a)) && Spent(cfg, d, pc) + MaxStay(d, pc) <= Spent(cfg, d, W.Next(cfg, pc, a))
  {
    Bases(cfg, d);
  }

  lemma FirstBound(cfg: W.Config, d: nat, pc: W.Pc, a: W.Answer)
    requires pc.Claiming? && Holding(W.Next(cfg, pc, a))
    ensures InRange(cfg, W.Next(cfg, pc, a)) && d <= Spent(cfg, d, W.Next(cfg, pc, a))
  {
  }

  // ----- the timed invariant

  function ClaimTime(s: Sys, w: nat): int
    requires w in s.workers && s.workers[w].id in s.lives && s.workers[w].claim < |s.lives[s.workers[w].id].claims|
  {
    s.lives[s.workers[w].id].claims[s.workers[w].claim].at
  }

  ghost predicate OnTime(cfg: Config, d: nat, x: Timed, w: nat)
    requires w in x.s.workers
  {
    var v := x.s.workers[w];
    && w in x.since && x.since[w] <= x.clock
    && (Leased(v.pc) ==> x.clock - x.since[w] <= MaxStay(d, v.pc))
    && (Holding(v.pc) ==>
          && InRange(cfg.worker, v.pc)
          && v.id in x.s.lives && v.claim < |x.s.lives[v.id].claims|
          && x.since[w] - ClaimTime(x.s, w) <= Spent(cfg.worker, d, v.pc))
  }

  ghost predicate TimedInv(cfg: Config, d: nat, x: Timed) {
    && Inv(cfg, x.s)
    && (forall w <- x.s.workers :: OnTime(cfg, d, x, w))
  }

  /** While a worker holds a message, the claim in its row is not yet stale. */
  lemma NotStale(cfg: Config, d: nat, x: Timed, w: nat, now: int)
    requires LeaseFits(cfg, d)
    requires w in x.s.workers && WorkerOk(x.s, w) && OnTime(cfg, d, x, w) && Holding(x.s.workers[w].pc)
    requires LifeOk(cfg, x.s, x.s.workers[w].id) && !x.s.lives[x.s.workers[w].id].overrun && now <= x.clock
    ensures !Claims(x.s.t, x.s.workers[w].id, now, W.StaleAfter(cfg.worker))
  {
    StandBound(cfg, d, x.s.workers[w].pc);
  }

  lemma NoOverrun(cfg: Config, d: nat, x: Timed, w: nat, ch: Choice)
    requires LeaseFits(cfg, d)
    requires TimedInv(cfg, d, x) && NoneOverrun(x.s) && Running(x.s, w) && Allowed(d, x, Do(WorkStep(w, ch)))
    ensures !NextLife(cfg, x.s, w, ch).overrun
  {
    var m := x.s.workers[w].id;
    assert OnTime(cfg, d, x, w);
    if Takes(cfg, x.s.t, x.s.workers[w], ch) && Held(x.s, m) {
      var v :| v in x.s.workers && x.s.workers[v].id == m && Holding(x.s.workers[v].pc);
      assert WorkerOk(x.s, v) && OnTime(cfg, d, x, v) && MessageOk(cfg, x.s, m);
      NotStale(cfg, d, x, v, ch.now);
      assert false;
    }
  }

  lemma WorkerStaysOnTime(cfg: Config, d: nat, x: Timed, w: nat, ch: Choice)
    requires Running(x.s, w) && OnTime(cfg, d, x, w) && WorkerOk(x.s, w) && Allowed(d, x, Do(WorkStep(w, ch)))
    ensures OnTime(cfg, d, Timed(DoWork(cfg, x.s, w, ch), x.clock, x.since[w := x.clock]), w)
  {
    var v := x.s.workers[w];
    var a := WorkAnswer(cfg, x.s.t, v, ch);
    if Holding(W.Next(cfg.worker, v.pc, a)) {
      if v.pc.Claiming? { FirstBound(cfg.worker, d, v.pc, a); } else { StepBound(cfg.worker, d, v.pc, a); }
    }
  }

  lemma OthersStayOnTime(cfg: Config, d: nat, x: Timed, w: nat, ch: Choice, v: nat)
    requires Running(x.s, w) && v in x.s.workers && v != w && OnTime(cfg, d, x, v)
    ensures OnTime(cfg, d, Timed(DoWork(cfg, x.s, w, ch), x.clock, x.since[w := x.clock]), v)
  {
    var u := DoWork(cfg, x.s, w, ch);
    assert u.workers[v] == x.s.workers[v];
    assert x.s.workers[v].id in x.s.lives ==> x.s.lives[x.s.workers[v].id].claims <= u.lives[x.s.workers[v].id].claims;
  }

  ghost predicate NoneOverrun(s: Sys) {
    forall m <- s.lives :: !s.lives[m].overrun
  }

  lemma WorkKeepsTime(cfg: Config, d: nat, x: Timed, w: nat, ch: Choice)
    requires TimedInv(cfg, d, x) && Running(x.s, w) && Allowed(d, x, Do(WorkStep(w, ch)))
    ensures TimedInv(cfg, d, Timed(DoWork(cfg, x.s, w, ch), x.clock, x.since[w := x.clock]))
  {
    WorkStepKeeps(cfg, x.s, w, ch);
    AllOnTime(cfg, d, x, w, ch);
  }

  lemma StillNoneOverrun(cfg: Config, s: Sys, w: nat, ch: Choice)
    requires Running(s, w) && NoneOverrun(s) && !NextLife(cfg, s, w, ch).overrun
    ensures NoneOverrun(DoWork(cfg, s, w, ch))
  {
  }

  lemma AllOnTime(cfg: Config, d: nat, x: Timed, w: nat, ch: Choice)
    requires Running(x.s, w) && WorkerOk(x.s, w) && Allowed(d, x, Do(WorkStep(w, ch)))
    requires forall v <- x.s.workers :: OnTime(cfg, d, x, v)
    ensures var y := Timed(DoWork(cfg, x.s, w, ch), x.clock, x.since[w := x.clock]);
            forall v <- y.s.workers :: OnTime(cfg, d, y, v)
  {
    var y := Timed(DoWork(cfg, x.s, w, ch), x.clock, x.since[w := x.clock]);
    forall v <- y.s.workers ensures OnTime(cfg, d, y, v) {
      if v == w { WorkerStaysOnTime(cfg, d, x, w, ch); } else { OthersStayOnTime(cfg, d, x, w, ch, v); }
    }
  }

  /** Events that are no worker step neither start nor prolong a run. */
  lemma OtherEventOnTime(cfg: Config, d: nat, x: Timed, e: Event, v: nat)
    requires x.s.calls.Keys == x.s.lives.Keys && (e.WorkStep? ==> !Running(x.s, e.w))
    requires v in x.s.workers ==> OnTime(cfg, d, x, v)
    requires v in Apply(cfg, x.s, e).workers
    ensures OnTime(cfg, d, Timed(Apply(cfg, x.s, e), x.clock, Since(x, e)), v)
  {
  }

  lemma OtherEventNoOverrun(cfg: Config, s: Sys, e: Event)
    requires s.calls.Keys == s.lives.Keys && NoneOverrun(s) && (e.WorkStep? ==> !Running(s, e.w))
    ensures NoneOverrun(Apply(cfg, s, e))
  {
  }

  lemma OtherEventKeepsTime(cfg: Config, d: nat, x: Timed, e: Event)
    requires TimedInv(cfg, d, x) && (e.WorkStep? ==> !Running(x.s, e.w))
    ensures TimedInv(cfg, d, Timed(Apply(cfg, x.s, e), x.clock, Since(x, e)))
  {
    EventKeeps(cfg, x.s, e);
    AllStillOnTime(cfg, d, x, e);
  }

  lemma AllStillOnTime(cfg: Config, d: nat, x: Timed, e: Event)
    requires x.s.calls.Keys == x.s.lives.Keys && (e.WorkStep? ==> !Running(x.s, e.w))
    requires forall v <- x.s.workers :: OnTime(cfg, d, x, v)
    ensures var y := Timed(Apply(cfg, x.s, e), x.clock, Since(x, e));
            forall v <- y.s.workers :: OnTime(cfg, d, y, v)
  {
    var y := Timed(Apply(cfg, x.s, e), x.clock, Since(x, e));
    forall v <- y.s.workers ensures OnTime(cfg, d, y, v) {
      OtherEventOnTime(cfg, d, x, e, v);
    }
  }

  lemma EventKeepsTime(cfg: Config, d: nat, x: Timed, e: Event)
    requires TimedInv(cfg, d, x) && Allowed(d, x, Do(e))
    ensures TimedInv(cfg, d, Timed(Apply(cfg, x.s, e), x.clock, Since(x, e)))
  {
    if e.WorkStep? && Running(x.s, e.w) {
      WorkKeepsTime(cfg, d, x, e.w, e.choice);
    } else {
      OtherEventKeepsTime(cfg, d, x, e);
    }
  }

  lemma TickKeepsTime(cfg: Config, d: nat, x: Timed, ms: nat)
    requires TimedInv(cfg, d, x) && Allowed(d, x, Tick(ms))
    ensures TimedInv(cfg, d, x.(clock := x.clock + ms))
  {
    forall w <- x.s.workers ensures OnTime(cfg, d, x.(clock := x.clock + ms), w) {
      assert OnTime(cfg, d, x, w);
    }
  }

  lemma StepKeepsTime(cfg: Config, d: nat, x: Timed, e: TimedEvent)
    requires TimedInv(cfg, d, x)
    ensures TimedInv(cfg, d, Step(cfg, d, x, e))
  {
    if Allowed(d, x, e) {
      if e.Tick? { TickKeepsTime(cfg, d, x, e.ms); } else { EventKeepsTime(cfg, d, x, e.event); }
    }
  }

  lemma {:induction false} TimedRunKeeps(cfg: Config, d: nat, x: Timed, es: seq<TimedEvent>)
    requires TimedInv(cfg, d, x)
    ensures TimedInv(cfg, d, TimedRun(cfg, d, x, es))
    decreases |es|
  {
    if es != [] {
      StepKeepsTime(cfg, d, x, es[0]);
      TimedRunKeeps(cfg, d, Step(cfg, d, x, es[0]), es[1..]);
    }
  }

  lemma HolderIsOnTime(cfg: Config, d: nat, x: Timed, w: nat)
    requires w in x.s.workers && OnTime(cfg, d, x, w) && Holding(x.s.workers[w].pc)
    ensures x.s.workers[w].id in x.s.lives && x.s.workers[w].claim < |x.s.lives[x.s.workers[w].id].claims|
    ensures x.clock - ClaimTime(x.s, w) <= RunMs(cfg) + 5 * d
  {
    StandBound(cfg, d, x.s.workers[w].pc);
  }

  /** In every timed run, whatever staleAfter is: as long as a worker is between claim and final write,
      no more than 26.2 s (20.2 s without a limiter) and five store calls have passed since the time
      its claim carries. */
  lemma RunBound(cfg: Config, d: nat, clock: int, es: seq<TimedEvent>, w: nat)
    requires var s := TimedRun(cfg, d, Timed(START, clock, map[]), es).s; w in s.workers && Holding(s.workers[w].pc)
    ensures var x := TimedRun(cfg, d, Timed(START, clock, map[]), es);
            && x.s.workers[w].id in x.s.lives && x.s.workers[w].claim < |x.s.lives[x.s.workers[w].id].claims|
            && x.clock - ClaimTime(x.s, w) <= RunMs(cfg) + 5 * d
  {
    TimedRunKeeps(cfg, d, Timed(START, clock, map[]), es);
    HolderIsOnTime(cfg, d, TimedRun(cfg, d, Timed(START, clock, map[]), es), w);
  }

  // ----- no overrun while the lease fits

  lemma WorkNoOverrun(cfg: Config, d: nat, x: Timed, w: nat, ch: Choice)
    requires LeaseFits(cfg, d) && TimedInv(cfg, d, x) && NoneOverrun(x.s) && Running(x.s, w) && Allowed(d, x, Do(WorkStep(w, ch)))
    ensures NoneOverrun(DoWork(cfg, x.s, w, ch))
  {
    NoOverrun(cfg, d, x, w, ch);
    StillNoneOverrun(cfg, x.s, w, ch);
  }

  lemma StepNoOverrun(cfg: Config, d: nat, x: Timed, e: TimedEvent)
    requires LeaseFits(cfg, d) && TimedInv(cfg, d, x) && NoneOverrun(x.s)
    ensures NoneOverrun(Step(cfg, d, x, e).s)
  {
    SameKeys(cfg, x.s);
    if Allowed(d, x, e) && e.Do? {
      if e.event.WorkStep? && Running(x.s, e.event.w) {
        WorkNoOverrun(cfg, d, x, e.event.w, e.event.choice);
      } else {
        OtherEventNoOverrun(cfg, x.s, e.event);
      }
    }
  }

  lemma {:induction false} RunNoOverrun(cfg: Config, d: nat, x: Timed, es: seq<TimedEvent>)
    requires LeaseFits(cfg, d) && TimedInv(cfg, d, x) && NoneOverrun(x.s)
    ensures TimedInv(cfg, d, TimedRun(cfg, d, x, es)) && NoneOverrun(TimedRun(cfg, d, x, es).s)
    decreases |es|
  {
    if es != [] {
      StepKeepsTime(cfg, d, x, es[0]);
      StepNoOverrun(cfg, d, x, es[0]);
      RunNoOverrun(cfg, d, Step(cfg, d, x, es[0]), es[1..]);
    }
  }

  lemma OneHolder(s: Sys, v: nat, w: nat)
    requires NoneOverrun(s) && v in s.workers && w in s.workers && WorkerOk(s, v) && WorkerOk(s, w)
    requires s.workers[v].id == s.workers[w].id && Holding(s.workers[v].pc) && Holding(s.workers[w].pc)
    ensures v == w
  {
  }

  /** If 26.2 s (20.2 s without a limiter) and five store calls fit into staleAfter, then in every timed run no two workers are
      ever between claim and final write for one message. */
  lemma MutualExclusion(cfg: Config, d: nat, clock: int, es: seq<TimedEvent>, v: nat, w: nat)
    requires LeaseFits(cfg, d)
    requires var s := TimedRun(cfg, d, Timed(START, clock, map[]), es).s;
             && v in s.workers && w in s.workers && s.workers[v].id == s.workers[w].id
             && Holding(s.workers[v].pc) && Holding(s.workers[w].pc)
    ensures v == w
  {
    RunNoOverrun(cfg, d, Timed(START, clock, map[]), es);
    OneHolder(TimedRun(cfg, d, Timed(START, clock, map[]), es).s, v, w);
  }

  /** Under the same bound, no claim overruns, and a message is accepted at most once unless a
      write after a 2xx is lost. */
  lemma LeaseMakesSendsUnique(cfg: Config, d: nat, clock: int, es: seq<TimedEvent>, m: MessageId)
    requires LeaseFits(cfg, d)
    requires m in TimedRun(cfg, d, Timed(START, clock, map[]), es).s.lives
    ensures var l := TimedRun(cfg, d, Timed(START, clock, map[]), es).s.lives[m];
            !l.overrun && (l.accepts <= 1 || l.lost)
  {
    RunNoOverrun(cfg, d, Timed(START, clock, map[]), es);
    var s := TimedRun(cfg, d, Timed(START, clock, map[]), es).s;
    assert MessageOk(cfg, s, m);
    OnceMeansOnce(s, m);
  }

  /** No write after a 2xx was lost for the messages of bucket `b`. */
  ghost predicate NoneLost(s: Sys, b: Bucket) {
    forall m <- s.lives :: CreatedIn(s, m, b) ==> !s.lives[m].lost
  }

  lemma NothingWentWrong(s: Sys, b: Bucket)
    requires NoneOverrun(s) && NoneLost(s, b)
    ensures AllWell(s, b)
  {
  }

  /** End to end with real time: under the same bound, if the writes after each 2xx succeed, the
      provider answers 2xx at most max(0, MaxPerDay) times for one tenant, phone and UTC day. */
  lemma TimedEndToEnd(cfg: Config, d: nat, clock: int, es: seq<TimedEvent>, b: Bucket)
    requires LeaseFits(cfg, d)
    requires NoneLost(TimedRun(cfg, d, Timed(START, clock, map[]), es).s, b)
    ensures Acceptances(TimedRun(cfg, d, Timed(START, clock, map[]), es).s, b) <= Max0(cfg.maxPerDay)
  {
    RunNoOverrun(cfg, d, Timed(START, clock, map[]), es);
    NothingWentWrong(TimedRun(cfg, d, Timed(START, clock, map[]), es).s, b);
    AcceptancesBounded(cfg, TimedRun(cfg, d, Timed(START, clock, map[]), es).s, b);
  }

  lemma StepProgress(cfg: Config, d: nat, x: Timed, e: TimedEvent, m: MessageId)
    requires Inv(cfg, x.s) && m in x.s.t.messages
    ensures Progressed(x.s, Step(cfg, d, x, e).s, m) && Inv(cfg, Step(cfg, d, x, e).s)
  {
    NothingHappened(x.s, m);
    if Allowed(d, x, e) && e.Do? {
      EventProgress(cfg, x.s, e.event, m);
      EventKeeps(cfg, x.s, e.event);
    }
  }

  lemma {:induction false} TimedProgress(cfg: Config, d: nat, x: Timed, es: seq<TimedEvent>, m: MessageId)
    requires Inv(cfg, x.s) && m in x.s.t.messages
    ensures Progressed(x.s, TimedRun(cfg, d, x, es).s, m)
    decreases |es|
  {
    if es == [] {
      NothingHappened(x.s, m);
    } else {
      var y := Step(cfg, d, x, es[0]);
      StepProgress(cfg, d, x, es[0], m);
      TimedProgress(cfg, d, y, es[1..], m);
      ProgressChains(x.s, y.s, TimedRun(cfg, d, y, es[1..]).s, m);
    }
  }

  /** Under the same bound a row's state only ever moves forward: queued, processing, submitted,
      then delivered or failed. */
  lemma TimedPhasesAdvance(cfg: Config, d: nat, clock: int, past: seq<TimedEvent>, future: seq<TimedEvent>, m: MessageId)
    requires LeaseFits(cfg, d)
    requires m in TimedRun(cfg, d, Timed(START, clock, map[]), past).s.t.messages
    ensures var x := TimedRun(cfg, d, Timed(START, clock, map[]), past);
            var u := TimedRun(cfg, d, x, future).s;
            m in u.t.messages && Rank(x.s.t.messages[m].state) <= Rank(u.t.messages[m].state)
  {
    var x := TimedRun(cfg, d, Timed(START, clock, map[]), past);
    RunNoOverrun(cfg, d, Timed(START, clock, map[]), past);
    RunNoOverrun(cfg, d, x, future);
    TimedProgress(cfg, d, x, future, m);
  }
}
