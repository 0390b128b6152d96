/** Why the guarantees carry conditions: whatever the configuration, leaving one out admits a
    run that breaks the guarantee. */
module Traces {
  import opened Boundary
  import opened Tables
  import W = Processor
  import A = Service
  import opened Template
  import opened Text
  import opened System
  import Invariant

  const M := "m"
  const REQUEST := A.Request("tenant", "key", "1", "t", [], "")

  /** The cap admits a message and its template exists. */
  predicate Usable(cfg: Config) {
    cfg.maxPerDay >= 1 && "t" in cfg.worker.templates && cfg.worker.templates["t"] != ""
  }

  function Pick(now: int, call: W.CallResult): Choice {
    Choice(Works, true, false, now, call)
  }

  const YES := Pick(0, W.BreakerOpen)
  const NO := Choice(Works, false, false, 0, W.BreakerOpen)

  lemma {:induction false} RunAppend(cfg: Config, s: Sys, es: seq<Event>, fs: seq<Event>)
    ensures RunFrom(cfg, s, es + fs) == RunFrom(cfg, RunFrom(cfg, s, es), fs)
    decreases |es|
  {
    if es == [] {
      assert es + fs == fs;
    } else {
      assert (es + fs)[1..] == es[1..] + fs;
      RunAppend(cfg, Apply(cfg, s, es[0]), es[1..], fs);
    }
  }

  /** A run with one more event. */
  lemma Then(cfg: Config, es: seq<Event>, e: Event) returns (fs: seq<Event>)
    ensures fs == es + [e] && Run(cfg, fs) == Apply(cfg, Run(cfg, es), e)
  {
    fs := es + [e];
    RunAppend(cfg, START, es, [e]);
    assert RunFrom(cfg, Apply(cfg, Run(cfg, es), e), []) == Apply(cfg, Run(cfg, es), e);
  }

  ghost predicate ApiOnly(es: seq<Event>) {
    forall e <- es :: e.ApiStart? || e.ApiStep?
  }

  /** A run of API events with one more. */
  lemma ThenApi(cfg: Config, es: seq<Event>, e: Event) returns (fs: seq<Event>)
    requires ApiOnly(es) && (e.ApiStart? || e.ApiStep?)
    ensures ApiOnly(fs) && Run(cfg, fs) == Apply(cfg, Run(cfg, es), e)
  {
    fs := Then(cfg, es, e);
  }

  // ----- the message is created and its job delivered

  ghost predicate Creating(s: Sys, pc: A.Pc) {
    && s.calls == map[M := ApiCall(REQUEST, 0, pc)] && s.lives == map[M := NEW_LIFE] && s.workers == map[]
    && s.t.caps == map[]
  }

  ghost predicate RowMade(s: Sys) {
    M in s.t.messages && s.t.messages[M] == A.NewRow(REQUEST, 0)
  }

  lemma Plain()
    ensures A.Normalized(REQUEST) == REQUEST
  {
    TrimSpaceIsFixed("1");
    assert A.DropBlanks("1") == "1" + A.DropBlanks("");
  }

  lemma StartStep(cfg: Config)
    ensures var s := Apply(cfg, START, ApiStart(M, REQUEST, 0)); Creating(s, A.Finding) && s.t == EMPTY
  {
    Plain();
  }

  lemma FindStep(cfg: Config, s: Sys)
    requires Creating(s, A.Finding) && s.t == EMPTY
    ensures var u := Apply(cfg, s, ApiStep(M, YES)); Creating(u, A.Inserting) && u.t == EMPTY
  {
  }

  lemma InsertStep(cfg: Config, s: Sys)
    requires Creating(s, A.Inserting) && s.t == EMPTY
    ensures var u := Apply(cfg, s, ApiStep(M, YES)); Creating(u, A.AskingSuppression) && RowMade(u)
  {
  }

  lemma GateSteps(cfg: Config, s: Sys)
    requires RowMade(s)
    ensures Creating(s, A.AskingSuppression) ==> var u := Apply(cfg, s, ApiStep(M, NO)); Creating(u, A.AskingConsent) && RowMade(u)
    ensures Creating(s, A.AskingConsent) ==> var u := Apply(cfg, s, ApiStep(M, YES)); Creating(u, A.Charging) && RowMade(u)
  {
  }

  ghost predicate Charged1(s: Sys, pc: A.Pc) {
    s.calls == map[M := ApiCall(REQUEST, 0, pc)] && s.lives == map[M := NEW_LIFE] && s.workers == map[] && RowMade(s)
  }

  lemma ChargeStep(cfg: Config, s: Sys)
    requires Usable(cfg) && Creating(s, A.Charging) && RowMade(s)
    ensures Charged1(Apply(cfg, s, ApiStep(M, YES)), A.Enqueueing)
  {
  }

  lemma EnqueueStep(cfg: Config, s: Sys)
    requires Charged1(s, A.Enqueueing)
    ensures var u := Apply(cfg, s, ApiStep(M, YES)); Charged1(u, A.Done(A.Created(M))) && M in u.jobs
  {
  }

  lemma Enqueued(cfg: Config) returns (es: seq<Event>)
    requires Usable(cfg)
    ensures var s := Run(cfg, es); M in s.jobs && s.lives == map[M := NEW_LIFE] && s.workers == map[] && RowMade(s)
    ensures ApiOnly(es)
  {
    StartStep(cfg);
    es := ThenApi(cfg, [], ApiStart(M, REQUEST, 0));
    FindStep(cfg, Run(cfg, es));
    es := ThenApi(cfg, es, ApiStep(M, YES));
    InsertStep(cfg, Run(cfg, es));
    es := ThenApi(cfg, es, ApiStep(M, YES));
    GateSteps(cfg, Run(cfg, es));
    es := ThenApi(cfg, es, ApiStep(M, NO));
    GateSteps(cfg, Run(cfg, es));
    es := ThenApi(cfg, es, ApiStep(M, YES));
    ChargeStep(cfg, Run(cfg, es));
    es := ThenApi(cfg, es, ApiStep(M, YES));
    EnqueueStep(cfg, Run(cfg, es));
    es := ThenApi(cfg, es, ApiStep(M, YES));
  }

  // ----- a worker claims and calls the provider

  /** The row as it was created, but claimed at `at`. */
  ghost predicate Claimed(s: Sys, at: int) {
    && M in s.t.messages && s.t.messages[M].template == "t" && s.t.messages[M].state.Processing? && s.t.messages[M].updatedAt == at
    && M in s.jobs && M in s.lives
  }

  ghost predicate Ready(s: Sys) {
    M in s.t.messages && s.t.messages[M].template == "t" && Invariant.Fresh(s.t.messages[M].state) && M in s.jobs && M in s.lives
  }

  ghost predicate Stands(s: Sys, w: nat, pc: W.Pc) {
    w in s.workers && s.workers[w].id == M && s.workers[w].pc == pc
  }

  lemma DeliverStep(cfg: Config, s: Sys, w: nat)
    requires Ready(s) && w !in s.workers
    ensures var u := Apply(cfg, s, Deliver(w, M));
            u.t == s.t && u.lives == s.lives && u.jobs == s.jobs && u.workers == s.workers[w := Worker(M, W.Reading, 0)]
            && (Held(u, M) ==> Held(s, M))
  {
  }

  lemma ReadStep(cfg: Config, s: Sys, w: nat)
    requires Ready(s) && Stands(s, w, W.Reading)
    ensures var u := Apply(cfg, s, WorkStep(w, YES));
            && u.t == s.t && u.jobs == s.jobs && u.lives == s.lives && u.workers.Keys == s.workers.Keys
            && (Held(u, M) ==> Held(s, M) || Holding(u.workers[w].pc))
            && (forall v <- s.workers :: v != w ==> u.workers[v] == s.workers[v])
            && Stands(u, w, W.Claiming(Read(s.t.messages[M])))
  {
    var u := Apply(cfg, s, WorkStep(w, YES));
    assert u.lives == s.lives;
  }

  lemma ClaimStep(cfg: Config, s: Sys, w: nat, now: int)
    requires Usable(cfg) && Ready(s) && Stands(s, w, W.Claiming(Read(s.t.messages[M])))
    requires Claims(s.t, M, now, W.StaleAfter(cfg.worker))
    ensures var u := Apply(cfg, s, WorkStep(w, Pick(now, W.BreakerOpen)));
            && Claimed(u, now) && u.lives[M].accepted == s.lives[M].accepted && u.lives[M].sent == s.lives[M].sent
            && u.workers[w].claim == |s.lives[M].claims|
            && u.lives[M].lost == s.lives[M].lost && u.lives[M].overrun == (s.lives[M].overrun || Held(s, M))
            && |u.lives[M].claims| == |s.lives[M].claims| + 1
            && u.workers.Keys == s.workers.Keys && (forall v <- s.workers :: v != w ==> u.workers[v] == s.workers[v])
            && exists to, body :: Stands(u, w, W.StartAttempt(cfg.worker, 0, to, body))
  {
    var m := Read(s.t.messages[M]);
    var body := Render(cfg.worker.templates["t"], m.vars);
    assert Stands(Apply(cfg, s, WorkStep(w, Pick(now, W.BreakerOpen))), w, W.StartAttempt(cfg.worker, 0, m.to, body));
  }

  lemma TokenStep(cfg: Config, s: Sys, w: nat, to: string, body: string)
    requires M in s.lives && Stands(s, w, W.Limiting(0, to, body))
    ensures var u := Apply(cfg, s, WorkStep(w, YES));
            && u.t == s.t && u.jobs == s.jobs && u.lives == s.lives && u.workers.Keys == s.workers.Keys
            && (Held(u, M) ==> Held(s, M) || Holding(u.workers[w].pc))
            && (forall v <- s.workers :: v != w ==> u.workers[v] == s.workers[v])
            && Stands(u, w, W.Calling(0, to, body)) && u.workers[w].claim == s.workers[w].claim
  {
    var u := Apply(cfg, s, WorkStep(w, YES));
    assert u.lives == s.lives;
  }

  /** A new worker is handed the job and reads the row. */
  lemma ReadByNew(cfg: Config, past: seq<Event>, w: nat) returns (es: seq<Event>)
    requires Ready(Run(cfg, past)) && w !in Run(cfg, past).workers
    ensures var s, u := Run(cfg, past), Run(cfg, es);
            && u.t == s.t && u.lives == s.lives && u.jobs == s.jobs && (Held(u, M) ==> Held(s, M))
            && u.workers.Keys == s.workers.Keys + {w} && (forall v <- s.workers :: u.workers[v] == s.workers[v])
            && Stands(u, w, W.Claiming(Read(s.t.messages[M])))
  {
    DeliverStep(cfg, Run(cfg, past), w);
    es := Then(cfg, past, Deliver(w, M));
    ReadStep(cfg, Run(cfg, es), w);
    es := Then(cfg, es, WorkStep(w, YES));
  }

  /** From any reachable state with a claimable message, a new worker can claim it and stand at its first send. */
  lemma ClaimAndCall(cfg: Config, past: seq<Event>, w: nat, now: int) returns (es: seq<Event>)
    requires Usable(cfg) && Ready(Run(cfg, past)) && w !in Run(cfg, past).workers
    requires Claims(Run(cfg, past).t, M, now, W.StaleAfter(cfg.worker))
    ensures var s, u := Run(cfg, past), Run(cfg, es);
            && Claimed(u, now) && u.lives[M].accepted == s.lives[M].accepted
            && u.lives[M].lost == s.lives[M].lost && (!Held(s, M) && !s.lives[M].overrun ==> !u.lives[M].overrun)
            && |u.lives[M].claims| == |s.lives[M].claims| + 1
            && u.workers.Keys == s.workers.Keys + {w} && (forall v <- s.workers :: u.workers[v] == s.workers[v])
            && u.workers[w].id == M && u.workers[w].pc.Calling? && u.workers[w].claim == |s.lives[M].claims|
  {
    es := ReadByNew(cfg, past, w);
    ClaimStep(cfg, Run(cfg, es), w, now);
    es := Then(cfg, es, WorkStep(w, Pick(now, W.BreakerOpen)));
    if cfg.worker.hasLimiter {
      var to, body :| Stands(Run(cfg, es), w, W.StartAttempt(cfg.worker, 0, to, body));
      TokenStep(cfg, Run(cfg, es), w, to, body);
      es := Then(cfg, es, WorkStep(w, YES));
    }
  }

  // ----- what goes wrong

  lemma BreakerStep(cfg: Config, s: Sys, w: nat)
    requires Claimed(s, 0) && w in s.workers && s.workers[w].id == M && s.workers[w].pc.Calling?
    ensures var u := Apply(cfg, s, WorkStep(w, YES)); Claimed(u, 0) && u.workers.Keys == s.workers.Keys
  {
  }

  lemma RefusedStep(cfg: Config, s: Sys, w: nat)
    requires Claimed(s, 0) && Stands(s, w, W.Claiming(Read(s.t.messages[M])))
    ensures var u := Apply(cfg, s, WorkStep(w, YES)); Claimed(u, 0) && u.lives[M].acked
  {
  }

  /** An open breaker leaves the row in `processing`; a redelivery before the claim goes stale is
      refused, answered with success, and acknowledged: the job is gone and the row stays stuck. */
  lemma AcknowledgedYetProcessing(cfg: Config)
    requires Usable(cfg)
    ensures exists es :: var s := Run(cfg, es); M in s.lives && s.lives[M].acked && M in s.t.messages && s.t.messages[M].state.Processing?
  {
    var es := Enqueued(cfg);
    es := ClaimAndCall(cfg, es, 0, 0);
    BreakerStep(cfg, Run(cfg, es), 0);
    es := Then(cfg, es, WorkStep(0, YES));
    DeliverStep(cfg, Run(cfg, es), 1);
    es := Then(cfg, es, Deliver(1, M));
    ReadStep(cfg, Run(cfg, es), 1);
    es := Then(cfg, es, WorkStep(1, YES));
    RefusedStep(cfg, Run(cfg, es), 1);
    es := Then(cfg, es, WorkStep(1, YES));
  }

  const ACCEPTED := Pick(0, W.Accepted("SM1", 201))

  lemma AcceptStep(cfg: Config, s: Sys, w: nat, at: int)
    requires Claimed(s, at) && w in s.workers && s.workers[w].id == M && s.workers[w].pc.Calling?
    ensures var u := Apply(cfg, s, WorkStep(w, ACCEPTED));
            && Claimed(u, at) && u.lives[M].accepted == s.lives[M].accepted + {s.workers[w].claim}
            && u.lives[M].lost == s.lives[M].lost && u.lives[M].overrun == s.lives[M].overrun
            && |u.lives[M].claims| == |s.lives[M].claims| && u.workers.Keys == s.workers.Keys
            && (forall v <- s.workers :: v != w ==> u.workers[v] == s.workers[v])
            && Stands(u, w, W.RecordingOk("SM1", 201))
  {
  }

  lemma LoseStep(cfg: Config, s: Sys, w: nat, at: int)
    requires Claimed(s, at) && w in s.workers && s.workers[w].id == M && s.workers[w].pc.RecordingOk?
    ensures var u := Apply(cfg, s, WorkStep(w, YES.(fault := LostBefore)));
            && Claimed(u, at) && u.lives[M].accepted == s.lives[M].accepted && |u.lives[M].claims| == |s.lives[M].claims|
            && u.lives[M].overrun == s.lives[M].overrun
            && u.workers.Keys == s.workers.Keys && u.workers[w].pc.Done?
  {
  }

  /** Worker 0 is the only one, has the first claim, and stands at its first send. */
  lemma FirstCall(cfg: Config) returns (es: seq<Event>)
    requires Usable(cfg)
    ensures var s := Run(cfg, es);
            && Claimed(s, 0) && s.lives[M].accepted == {} && !s.lives[M].lost && !s.lives[M].overrun && |s.lives[M].claims| == 1
            && s.workers.Keys == {0} && s.workers[0].id == M && s.workers[0].pc.Calling? && s.workers[0].claim == 0
  {
    es := Enqueued(cfg);
    es := ClaimAndCall(cfg, es, 0, 0);
  }

  lemma Counted(cfg: Config, es: seq<Event>)
    requires M in Run(cfg, es).lives
    ensures Invariant.CountsOk(Run(cfg, es).lives[M])
  {
    Invariant.EveryRun(cfg, es);
    assert Invariant.MessageOk(cfg, Run(cfg, es), M);
  }

  /** The last of two acceptances. */
  lemma SecondAccept(cfg: Config, past: seq<Event>, w: nat, at: int) returns (es: seq<Event>)
    requires var s := Run(cfg, past);
             && Claimed(s, at) && w in s.workers && s.workers[w].id == M && s.workers[w].pc.Calling?
             && s.lives[M].accepted == {0} && s.workers[w].claim == 1
    ensures var s, u := Run(cfg, past), Run(cfg, es);
            M in u.lives && u.lives[M].accepts == 2 && u.lives[M].lost == s.lives[M].lost && u.lives[M].overrun == s.lives[M].overrun
  {
    AcceptStep(cfg, Run(cfg, past), w, at);
    es := Then(cfg, past, WorkStep(w, ACCEPTED));
    assert Run(cfg, es).lives[M].accepted == {0, 1};
    Counted(cfg, es);
  }

  /** A claimed run that outlives its claim is enough for one message to be accepted twice. */
  lemma OverrunAcceptsTwice(cfg: Config)
    requires Usable(cfg)
    ensures exists es :: var s := Run(cfg, es); M in s.lives && s.lives[M].accepts == 2 && !s.lives[M].lost
  {
    var late := W.StaleAfter(cfg.worker) + 1;
    var es := FirstCall(cfg);
    es := ClaimAndCall(cfg, es, 1, late);
    AcceptStep(cfg, Run(cfg, es), 0, late);
    es := Then(cfg, es, WorkStep(0, ACCEPTED));
    es := SecondAccept(cfg, es, 1, late);
  }

  /** Worker 0 was answered 2xx and then lost the write that records it. */
  lemma LostWrite(cfg: Config) returns (es: seq<Event>)
    requires Usable(cfg)
    ensures var s := Run(cfg, es);
            && Claimed(s, 0) && s.lives[M].accepted == {0} && !s.lives[M].overrun && |s.lives[M].claims| == 1
            && s.workers.Keys == {0} && !Held(s, M)
  {
    es := FirstCall(cfg);
    AcceptStep(cfg, Run(cfg, es), 0, 0);
    es := Then(cfg, es, WorkStep(0, ACCEPTED));
    LoseStep(cfg, Run(cfg, es), 0, 0);
    es := Then(cfg, es, WorkStep(0, YES.(fault := LostBefore)));
  }

  /** So is a write that is lost after a 2xx. */
  lemma LostWriteAcceptsTwice(cfg: Config)
    requires Usable(cfg)
    ensures exists es :: var s := Run(cfg, es); M in s.lives && s.lives[M].accepts == 2 && !s.lives[M].overrun
  {
    var es := LostWrite(cfg);
    var late := W.StaleAfter(cfg.worker) + 1;
    es := ClaimAndCall(cfg, es, 1, late);
    es := SecondAccept(cfg, es, 1, late);
  }

  // ----- an empty limiter ends in `failed`

  lemma RefuseTokenStep(cfg: Config, s: Sys, w: nat, k: nat, to: string, body: string)
    requires M in s.lives && Stands(s, w, W.Limiting(k, to, body))
    ensures var u := Apply(cfg, s, WorkStep(w, NO));
            u.t == s.t && u.lives == s.lives && Stands(u, w, W.Napping(k, 200, to, body))
  {
    assert Apply(cfg, s, WorkStep(w, NO)).lives == s.lives;
  }

  lemma NapStep(cfg: Config, s: Sys, w: nat, k: nat, ms: int, to: string, body: string)
    requires M in s.lives && Stands(s, w, W.Napping(k, ms, to, body))
    ensures var u := Apply(cfg, s, WorkStep(w, YES));
            u.t == s.t && u.lives == s.lives && Stands(u, w, W.StartAttempt(cfg.worker, k + 1, to, body))
  {
    assert Apply(cfg, s, WorkStep(w, YES)).lives == s.lives;
  }

  /** The attempts from `k` on get no token. */
  lemma {:induction false} NoTokens(cfg: Config, past: seq<Event>, w: nat, k: nat, to: string, body: string) returns (es: seq<Event>)
    requires cfg.worker.hasLimiter && k <= 3 && M in Run(cfg, past).lives
    requires Stands(Run(cfg, past), w, W.StartAttempt(cfg.worker, k, to, body))
    ensures var s, u := Run(cfg, past), Run(cfg, es); u.t == s.t && u.lives == s.lives && Stands(u, w, W.EXHAUSTED)
    decreases 3 - k
  {
    if k == 3 {
      es := past;
    } else {
      RefuseTokenStep(cfg, Run(cfg, past), w, k, to, body);
      es := Then(cfg, past, WorkStep(w, NO));
      NapStep(cfg, Run(cfg, es), w, k, 200, to, body);
      es := Then(cfg, es, WorkStep(w, YES));
      es := NoTokens(cfg, es, w, k + 1, to, body);
    }
  }

  lemma GiveUpStep(cfg: Config, s: Sys, w: nat)
    requires M in s.t.messages && M in s.lives && Stands(s, w, W.EXHAUSTED)
    ensures var u := Apply(cfg, s, WorkStep(w, YES));
            && M in u.t.messages && u.t.messages[M].state.Failed? && u.t.messages[M].lastError == Some("twilio_retry_exhausted")
            && M in u.lives && u.lives[M].sent == s.lives[M].sent
  {
  }

  /** Worker 0 has the first claim and is about to start its first attempt. */
  lemma FirstAttempt(cfg: Config) returns (es: seq<Event>, to: string, body: string)
    requires Usable(cfg)
    ensures var s := Run(cfg, es); Claimed(s, 0) && s.lives[M].sent == {} && Stands(s, 0, W.StartAttempt(cfg.worker, 0, to, body))
  {
    es := Enqueued(cfg);
    es := ReadByNew(cfg, es, 0);
    ClaimStep(cfg, Run(cfg, es), 0, 0);
    es := Then(cfg, es, WorkStep(0, Pick(0, W.BreakerOpen)));
    to, body :| Stands(Run(cfg, es), 0, W.StartAttempt(cfg.worker, 0, to, body));
  }

  /** A limiter that never grants a token makes a message `failed` without one send having been tried. */
  lemma EmptyLimiterFails(cfg: Config)
    requires Usable(cfg) && cfg.worker.hasLimiter
    ensures exists es :: var s := Run(cfg, es);
              && M in s.t.messages && s.t.messages[M].state.Failed? && s.t.messages[M].lastError == Some("twilio_retry_exhausted")
              && M in s.lives && s.lives[M].sends == 0
  {
    var es, to, body := FirstAttempt(cfg);
    es := NoTokens(cfg, es, 0, 0, to, body);
    GiveUpStep(cfg, Run(cfg, es), 0);
    es := Then(cfg, es, WorkStep(0, YES));
    Counted(cfg, es);
  }

  // ----- `delivered` and `failed` overwrite each other

  ghost predicate SubmittedAs(s: Sys, sid: string) {
    M in s.t.messages && s.t.messages[M].state.Submitted? && Matches(s.t.messages[M], "twilio", sid)
  }

  lemma RecordStep(cfg: Config, s: Sys, w: nat, at: int)
    requires Claimed(s, at) && Stands(s, w, W.RecordingOk("SM1", 201))
    ensures var u := Apply(cfg, s, WorkStep(w, YES));
            && Claimed(u, at) && Stands(u, w, W.Finishing("SM1"))
            && u.workers.Keys == s.workers.Keys && (forall v <- s.workers :: v != w ==> u.workers[v] == s.workers[v])
  {
  }

  lemma FinishStep(cfg: Config, s: Sys, w: nat)
    requires M in s.t.messages && M in s.lives && Stands(s, w, W.Finishing("SM1"))
    ensures var u := Apply(cfg, s, WorkStep(w, YES));
            && SubmittedAs(u, "SM1") && M in u.lives
            && u.workers.Keys == s.workers.Keys && (forall v <- s.workers :: v != w ==> u.workers[v] == s.workers[v])
  {
  }

  /** Worker `w` is answered 2xx and records it. */
  lemma AcceptAndRecord(cfg: Config, past: seq<Event>, w: nat, at: int) returns (es: seq<Event>)
    requires var s := Run(cfg, past); Claimed(s, at) && w in s.workers && s.workers[w].id == M && s.workers[w].pc.Calling?
    ensures var s, u := Run(cfg, past), Run(cfg, es);
            && Claimed(u, at) && Stands(u, w, W.Finishing("SM1"))
            && u.workers.Keys == s.workers.Keys && (forall v <- s.workers :: v != w ==> u.workers[v] == s.workers[v])
  {
    AcceptStep(cfg, Run(cfg, past), w, at);
    es := Then(cfg, past, WorkStep(w, ACCEPTED));
    RecordStep(cfg, Run(cfg, es), w, at);
    es := Then(cfg, es, WorkStep(w, YES));
  }

  lemma Submitting(cfg: Config) returns (es: seq<Event>)
    requires Usable(cfg)
    ensures SubmittedAs(Run(cfg, es), "SM1")
  {
    es := FirstCall(cfg);
    es := AcceptAndRecord(cfg, es, 0, 0);
    FinishStep(cfg, Run(cfg, es), 0);
    es := Then(cfg, es, WorkStep(0, YES));
  }

  function Callback(state: State): Event {
    ProviderUpdate("twilio", "SM1", state, "", 0)
  }

  lemma CallbackStep(cfg: Config, s: Sys, state: State)
    requires (state.Delivered? || state.Failed?) && M in s.t.messages && Matches(s.t.messages[M], "twilio", "SM1")
    ensures var u := Apply(cfg, s, Callback(state));
            && M in u.t.messages && u.t.messages[M].state == state && Matches(u.t.messages[M], "twilio", "SM1")
            && u.workers == s.workers && u.lives == s.lives
  {
  }

  /** Either terminal state can follow the other. */
  lemma TerminalStatesOverwrite(cfg: Config, first: State, second: State)
    requires Usable(cfg) && (first.Delivered? || first.Failed?) && (second.Delivered? || second.Failed?)
    ensures exists es :: var s := Run(cfg, es); var u := Apply(cfg, s, Callback(second));
              M in s.t.messages && s.t.messages[M].state == first && M in u.t.messages && u.t.messages[M].state == second
  {
    var es := Submitting(cfg);
    CallbackStep(cfg, Run(cfg, es), first);
    es := Then(cfg, es, Callback(first));
    CallbackStep(cfg, Run(cfg, es), second);
  }

  // ----- an overrun moves a row back

  /** Worker 0 outlived its claim, and both it and the next claimant are about to write their ids. */
  lemma TwoFinishing(cfg: Config) returns (es: seq<Event>)
    requires Usable(cfg)
    ensures var s := Run(cfg, es);
            M in s.t.messages && M in s.lives && Stands(s, 0, W.Finishing("SM1")) && Stands(s, 1, W.Finishing("SM1"))
  {
    var late := W.StaleAfter(cfg.worker) + 1;
    es := FirstCall(cfg);
    es := ClaimAndCall(cfg, es, 1, late);
    es := AcceptAndRecord(cfg, es, 0, late);
    es := AcceptAndRecord(cfg, es, 1, late);
  }

  /** A claimed run that outlives its claim is enough for a row to go back from a terminal state to
      `submitted`, and so for its last terminal update to be lost. */
  lemma OverrunMovesBack(cfg: Config, state: State)
    requires Usable(cfg) && (state.Delivered? || state.Failed?)
    ensures exists es, e :: var s := Run(cfg, es); var u := Apply(cfg, s, e);
              && M in s.t.messages && s.t.messages[M].state == state && e.WorkStep?
              && M in u.t.messages && u.t.messages[M].state.Submitted?
  {
    var es := TwoFinishing(cfg);
    FinishStep(cfg, Run(cfg, es), 1);
    es := Then(cfg, es, WorkStep(1, YES));
    CallbackStep(cfg, Run(cfg, es), state);
    es := Then(cfg, es, Callback(state));
    FinishStep(cfg, Run(cfg, es), 0);
    assert Apply(cfg, Run(cfg, es), WorkStep(0, YES)).t.messages[M].state.Submitted?;
  }
}
