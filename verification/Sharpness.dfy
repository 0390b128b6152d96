/** The lease bound is sharp: two workers can hold one message as soon as 26.2 s (20.2 s without a
    limiter) and five store calls do not fit into staleAfter. */
module Sharpness {
  import W = Processor
  import opened System
  import opened Lease
  import opened Traces

  lemma {:induction false} TimedAppend(cfg: Config, d: nat, x: Timed, es: seq<TimedEvent>, fs: seq<TimedEvent>)
    ensures TimedRun(cfg, d, x, es + fs) == TimedRun(cfg, d, TimedRun(cfg, d, x, es), fs)
    decreases |es|
  {
    if es == [] {
      assert es + fs == fs;
    } else {
      assert (es + fs)[1..] == es[1..] + fs;
      TimedAppend(cfg, d, Step(cfg, d, x, es[0]), es[1..], fs);
    }
  }

  const START_TIMED := Timed(START, 0, map[])

  /** Some timed run from the start leads to `x`. */
  ghost predicate Reachable(cfg: Config, d: nat, x: Timed) {
    exists es :: TimedRun(cfg, d, START_TIMED, es) == x
  }

  lemma ReachNext(cfg: Config, d: nat, x: Timed, e: TimedEvent)
    requires Reachable(cfg, d, x)
    ensures Reachable(cfg, d, Step(cfg, d, x, e))
  {
    var es :| TimedRun(cfg, d, START_TIMED, es) == x;
    TimedAppend(cfg, d, START_TIMED, es, [e]);
    assert TimedRun(cfg, d, Step(cfg, d, x, e), []) == Step(cfg, d, x, e);
    assert TimedRun(cfg, d, START_TIMED, es + [e]) == Step(cfg, d, x, e);
  }

  /** API events take no time. */
  lemma {:induction false} ReachApi(cfg: Config, d: nat, x: Timed, es: seq<Event>) returns (y: Timed)
    requires Reachable(cfg, d, x) && ApiOnly(es)
    ensures Reachable(cfg, d, y) && y == x.(s := RunFrom(cfg, x.s, es))
    decreases |es|
  {
    if es == [] {
      y := x;
    } else {
      assert es[0] in es;
      ReachNext(cfg, d, x, Do(es[0]));
      y := ReachApi(cfg, d, x.(s := Apply(cfg, x.s, es[0])), es[1..]);
    }
  }

  /** Every call times out, everything else works. */
  const SLOW := Choice(Works, true, false, 0, W.CallFailed(W.TimedOut, 0))

  /** Worker 0 is the only one, has just come to `pc`, and made its claim at `at`. */
  ghost predicate Solo(x: Timed, pc: W.Pc, at: int) {
    x.s.workers == map[0 := Worker(M, pc, 0)] && 0 in x.since && x.since[0] == x.clock && Claimed(x.s, at)
  }

  /** Time passes as long as worker 0 may stay where it is. */
  lemma Waits(cfg: Config, d: nat, x: Timed, pc: W.Pc, at: int) returns (y: Timed)
    requires Reachable(cfg, d, x) && Solo(x, pc, at)
    ensures Reachable(cfg, d, y) && y == x.(clock := x.clock + MaxStay(d, pc))
  {
    y := Step(cfg, d, x, Tick(MaxStay(d, pc)));
    ReachNext(cfg, d, x, Tick(MaxStay(d, pc)));
  }

  predicate Slow(pc: W.Pc) {
    pc.Limiting? || pc.Calling? || pc.RecordingError? || pc.Napping?
  }

  function SlowNext(cfg: W.Config, pc: W.Pc): W.Pc
    requires Slow(pc)
  {
    match pc
    case Limiting(k, to, body) => W.Calling(k, to, body)
    case Calling(k, to, body) => W.RecordingError(k, to, body, W.TimedOut, 0)
    case RecordingError(k, to, body, _, _) => W.Napping(k, W.Backoff(k), to, body)
    case Napping(k, _, to, body) => W.StartAttempt(cfg, k + 1, to, body)
  }

  lemma SlowEffect(cfg: Config, s: Sys, pc: W.Pc, at: int)
    requires s.workers == map[0 := Worker(M, pc, 0)] && Claimed(s, at) && Slow(pc)
    requires pc.RecordingError? ==> pc.error.TimedOut?
    ensures var u := Apply(cfg, s, WorkStep(0, SLOW)); u.workers == map[0 := Worker(M, SlowNext(cfg.worker, pc), 0)] && Claimed(u, at)
  {
  }

  /** Worker 0 stays as long as it may, and then takes its next slow step. */
  lemma StaysAndSteps(cfg: Config, d: nat, x: Timed, pc: W.Pc, at: int) returns (y: Timed)
    requires Reachable(cfg, d, x) && Solo(x, pc, at) && Slow(pc) && (pc.RecordingError? ==> pc.error.TimedOut?)
    ensures Reachable(cfg, d, y) && Solo(y, SlowNext(cfg.worker, pc), at) && y.clock == x.clock + MaxStay(d, pc)
  {
    var z := Waits(cfg, d, x, pc, at);
    y := Step(cfg, d, z, Do(WorkStep(0, SLOW)));
    ReachNext(cfg, d, z, Do(WorkStep(0, SLOW)));
    SlowEffect(cfg, z.s, pc, at);
  }

  /** The attempts from `k` on, each as slow as it can be. */
  lemma {:induction false} SlowAttempts(cfg: Config, d: nat, x: Timed, k: nat, to: string, body: string, at: int) returns (y: Timed)
    requires k <= 3
    requires Reachable(cfg, d, x) && Solo(x, W.StartAttempt(cfg.worker, k, to, body), at)
    ensures Reachable(cfg, d, y) && Solo(y, W.EXHAUSTED, at) && y.clock == x.clock + Base(cfg.worker, d, 3) - Base(cfg.worker, d, k)
    decreases 3 - k
  {
    if k == 3 {
      y := x;
    } else {
      y := SlowAttempt(cfg, d, x, k, to, body, at);
      y := SlowAttempts(cfg, d, y, k + 1, to, body, at);
    }
  }

  lemma SlowAttempt(cfg: Config, d: nat, x: Timed, k: nat, to: string, body: string, at: int) returns (y: Timed)
    requires k < 3
    requires Reachable(cfg, d, x) && Solo(x, W.StartAttempt(cfg.worker, k, to, body), at)
    ensures Reachable(cfg, d, y) && Solo(y, W.StartAttempt(cfg.worker, k + 1, to, body), at)
    ensures y.clock == x.clock + Base(cfg.worker, d, k + 1) - Base(cfg.worker, d, k)
  {
    y := SlowCall(cfg, d, x, k, to, body, at);
    y := SlowRetry(cfg, d, y, k, to, body, at);
  }

  lemma SlowCall(cfg: Config, d: nat, x: Timed, k: nat, to: string, body: string, at: int) returns (y: Timed)
    requires k < 3 && Reachable(cfg, d, x) && Solo(x, W.StartAttempt(cfg.worker, k, to, body), at)
    ensures Reachable(cfg, d, y) && Solo(y, W.RecordingError(k, to, body, W.TimedOut, 0), at)
    ensures y.clock == x.clock + TokenWait(cfg.worker) + CALL_MS
  {
    y := x;
    if cfg.worker.hasLimiter { y := StaysAndSteps(cfg, d, x, W.Limiting(k, to, body), at); }
    y := StaysAndSteps(cfg, d, y, W.Calling(k, to, body), at);
  }

  lemma SlowRetry(cfg: Config, d: nat, x: Timed, k: nat, to: string, body: string, at: int) returns (y: Timed)
    requires Reachable(cfg, d, x) && Solo(x, W.RecordingError(k, to, body, W.TimedOut, 0), at)
    ensures Reachable(cfg, d, y) && Solo(y, W.StartAttempt(cfg.worker, k + 1, to, body), at)
    ensures y.clock == x.clock + d + W.Backoff(k)
  {
    y := StaysAndSteps(cfg, d, x, W.RecordingError(k, to, body, W.TimedOut, 0), at);
    y := StaysAndSteps(cfg, d, y, W.Napping(k, W.Backoff(k), to, body), at);
  }

  /** Worker 0 stands before its claim since time 0; the row is as it was created. */
  ghost predicate AtClaim(x: Timed) {
    && Ready(x.s) && x.s.t.messages[M].state.Queued? && x.s.lives[M].claims == []
    && x.s.workers == map[0 := Worker(M, W.Claiming(Read(x.s.t.messages[M])), 0)]
    && 0 in x.since && x.since[0] == 0
  }

  lemma ReadAt(cfg: Config, d: nat, x: Timed)
    requires Ready(x.s) && x.s.t.messages[M].state.Queued? && x.s.lives[M].claims == [] && x.s.workers == map[] && x.clock == 0
    ensures var y := Step(cfg, d, Step(cfg, d, x, Do(Deliver(0, M))), Do(WorkStep(0, YES))); AtClaim(y) && y.clock == 0
  {
    var z := Step(cfg, d, x, Do(Deliver(0, M)));
    assert z.s.workers == map[0 := Worker(M, W.Reading, 0)];
    ReadStep(cfg, z.s, 0);
  }

  lemma Reading(cfg: Config, d: nat) returns (y: Timed)
    requires Usable(cfg)
    ensures Reachable(cfg, d, y) && AtClaim(y) && y.clock == 0
  {
    var es := Enqueued(cfg);
    assert TimedRun(cfg, d, START_TIMED, []) == START_TIMED;
    var x := ReachApi(cfg, d, START_TIMED, es);
    ReadAt(cfg, d, x);
    ReachNext(cfg, d, x, Do(Deliver(0, M)));
    ReachNext(cfg, d, Step(cfg, d, x, Do(Deliver(0, M))), Do(WorkStep(0, YES)));
    y := Step(cfg, d, Step(cfg, d, x, Do(Deliver(0, M))), Do(WorkStep(0, YES)));
  }

  lemma ClaimAt(cfg: Config, s: Sys) returns (to: string, body: string)
    requires Usable(cfg) && Ready(s) && s.t.messages[M].state.Queued? && s.lives[M].claims == []
    requires s.workers == map[0 := Worker(M, W.Claiming(Read(s.t.messages[M])), 0)]
    ensures var u := Apply(cfg, s, WorkStep(0, Pick(0, W.BreakerOpen)));
            Claimed(u, 0) && u.workers == map[0 := Worker(M, W.StartAttempt(cfg.worker, 0, to, body), 0)]
  {
    ClaimStep(cfg, s, 0, 0);
    var u := Apply(cfg, s, WorkStep(0, Pick(0, W.BreakerOpen)));
    to, body :| Stands(u, 0, W.StartAttempt(cfg.worker, 0, to, body));
    assert u.workers == map[0 := Worker(M, W.StartAttempt(cfg.worker, 0, to, body), 0)];
  }

  /** Worker 0 claims with the time it read before the statement, which takes all of its `d`. */
  lemma Claiming(cfg: Config, d: nat) returns (y: Timed, to: string, body: string)
    requires Usable(cfg)
    ensures Reachable(cfg, d, y) && Solo(y, W.StartAttempt(cfg.worker, 0, to, body), 0) && y.clock == d
  {
    var x := Reading(cfg, d);
    var z := Step(cfg, d, x, Tick(d));
    ReachNext(cfg, d, x, Tick(d));
    assert AtClaim(z) && z.clock == d;
    to, body := ClaimAt(cfg, z.s);
    ReachNext(cfg, d, z, Do(WorkStep(0, Pick(0, W.BreakerOpen))));
    y := Step(cfg, d, z, Do(WorkStep(0, Pick(0, W.BreakerOpen))));
  }

  /** At the end of the longest run worker 0 still holds the message. */
  lemma LongestRun(cfg: Config, d: nat) returns (y: Timed)
    requires Usable(cfg)
    ensures Reachable(cfg, d, y) && y.clock == RunMs(cfg) + 5 * d && Claimed(y.s, 0)
    ensures y.s.workers == map[0 := Worker(M, W.EXHAUSTED, 0)]
  {
    var x, to, body := Claiming(cfg, d);
    x := SlowAttempts(cfg, d, x, 0, to, body, 0);
    Bases(cfg.worker, d);
    y := Waits(cfg, d, x, W.EXHAUSTED, 0);
  }

  ghost predicate TwoHolders(s: Sys, v: nat, w: nat) {
    && v in s.workers && w in s.workers && s.workers[v].id == s.workers[w].id
    && Holding(s.workers[v].pc) && Holding(s.workers[w].pc)
  }

  /** Another worker is handed the job, reads the row, and stands before its claim. */
  lemma SecondReads(cfg: Config, d: nat, x: Timed) returns (y: Timed)
    requires Reachable(cfg, d, x) && Claimed(x.s, 0) && x.s.workers == map[0 := Worker(M, W.EXHAUSTED, 0)]
    ensures Reachable(cfg, d, y) && y.clock == x.clock && Claimed(y.s, 0)
    ensures 0 in y.s.workers && y.s.workers[0] == Worker(M, W.EXHAUSTED, 0)
    ensures Stands(y.s, 1, W.Claiming(Read(y.s.t.messages[M]))) && 1 in y.since && y.since[1] == y.clock
  {
    var z := SecondComes(cfg, d, x);
    ReadStep(cfg, z.s, 1);
    ReachNext(cfg, d, z, Do(WorkStep(1, YES)));
    y := Step(cfg, d, z, Do(WorkStep(1, YES)));
  }

  lemma SecondComes(cfg: Config, d: nat, x: Timed) returns (y: Timed)
    requires Reachable(cfg, d, x) && Claimed(x.s, 0) && x.s.workers == map[0 := Worker(M, W.EXHAUSTED, 0)]
    ensures Reachable(cfg, d, y) && y.clock == x.clock && Claimed(y.s, 0) && y.s.t == x.s.t
    ensures 0 in y.s.workers && y.s.workers[0] == Worker(M, W.EXHAUSTED, 0) && Stands(y.s, 1, W.Reading)
  {
    DeliverStep(cfg, x.s, 1);
    ReachNext(cfg, d, x, Do(Deliver(1, M)));
    y := Step(cfg, d, x, Do(Deliver(1, M)));
  }

  lemma SecondClaims(cfg: Config, d: nat, x: Timed)
    requires Usable(cfg) && Claimed(x.s, 0) && W.StaleAfter(cfg.worker) < x.clock
    requires 0 in x.s.workers && x.s.workers[0] == Worker(M, W.EXHAUSTED, 0)
    requires Stands(x.s, 1, W.Claiming(Read(x.s.t.messages[M]))) && 1 in x.since && x.since[1] == x.clock
    ensures TwoHolders(Step(cfg, d, x, Do(WorkStep(1, Pick(x.clock, W.BreakerOpen)))).s, 0, 1)
  {
    ClaimStep(cfg, x.s, 1, x.clock);
  }

  lemma TwoHold(cfg: Config, d: nat) returns (y: Timed)
    requires Usable(cfg) && !LeaseFits(cfg, d)
    ensures Reachable(cfg, d, y) && TwoHolders(y.s, 0, 1)
  {
    var x := LongestRun(cfg, d);
    x := SecondReads(cfg, d, x);
    SecondClaims(cfg, d, x);
    ReachNext(cfg, d, x, Do(WorkStep(1, Pick(x.clock, W.BreakerOpen))));
    y := Step(cfg, d, x, Do(WorkStep(1, Pick(x.clock, W.BreakerOpen))));
  }

  /** In no timed run, whatever the clock starts at, do two workers hold one message. */
  ghost predicate Exclusive(cfg: Config, d: nat) {
    forall clock, es, v, w :: TwoHolders(TimedRun(cfg, d, Timed(START, clock, map[]), es).s, v, w) ==> v == w
  }

  /** For a usable configuration, claims exclude each other in every timed run if and only if 26.2 s
      (20.2 s without a limiter) and five store calls fit into staleAfter. */
  lemma ExclusiveIffLeaseFits(cfg: Config, d: nat)
    requires Usable(cfg)
    ensures Exclusive(cfg, d) <==> LeaseFits(cfg, d)
  {
    if LeaseFits(cfg, d) {
      forall clock, es, v, w | TwoHolders(TimedRun(cfg, d, Timed(START, clock, map[]), es).s, v, w) ensures v == w {
        MutualExclusion(cfg, d, clock, es, v, w);
      }
    } else {
      var y := TwoHold(cfg, d);
      var es :| TimedRun(cfg, d, START_TIMED, es) == y;
      assert TwoHolders(TimedRun(cfg, d, Timed(START, 0, map[]), es).s, 0, 1);
    }
  }
}
