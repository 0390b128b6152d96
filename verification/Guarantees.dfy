/** What the invariant means: the guarantees of the service over every run. */
module Guarantees {
  import opened Boundary
  import opened Tables
  import W = Processor
  import A = Service
  import opened System
  import opened Invariant

  // ----- claims, sends and acceptances of one message

  lemma {:induction false} SpacedApart(claims: seq<ClaimRecord>, staleAfter: int, i: nat, j: nat)
    requires Spaced(claims, staleAfter) && i < j < |claims|
    ensures claims[i].at + (j - i) * staleAfter < claims[j].at
    decreases j
  {
    if i + 1 < j { SpacedApart(claims, staleAfter, i, j - 1); }
  }

  /** In every run any two claims of a message lie more than `staleAfter` apart per claim between them. */
  lemma ClaimSpacing(cfg: Config, es: seq<Event>, m: MessageId, i: nat, j: nat)
    requires m in Run(cfg, es).lives && i < j < |Run(cfg, es).lives[m].claims|
    ensures var claims := Run(cfg, es).lives[m].claims;
            claims[i].at + (j - i) * W.StaleAfter(cfg.worker) < claims[j].at
  {
    EveryRun(cfg, es);
    assert MessageOk(cfg, Run(cfg, es), m);
    SpacedApart(Run(cfg, es).lives[m].claims, W.StaleAfter(cfg.worker), i, j);
  }

  lemma SubsetSize<T>(a: set<T>, b: set<T>)
    requires a <= b
    ensures |a| <= |b|
  {
    assert b == a + (b - a);
  }

  lemma {:induction false} BoundedSize(a: set<nat>, n: nat)
    requires forall j <- a :: j < n
    ensures |a| <= n
  {
    if n > 0 { BoundedSize(a - {n - 1}, n - 1); }
  }

  lemma {:induction false} AttemptsSize(a: set<(nat, nat)>, n: nat)
    requires forall p <- a :: p.0 < n && p.1 < 3
    ensures |a| <= 3 * n
  {
    if n > 0 {
      var rest := a - {(n - 1, 0), (n - 1, 1), (n - 1, 2)};
      forall p <- rest ensures p.0 < n - 1 {
        assert p == (p.0, p.1);
      }
      AttemptsSize(rest, n - 1);
      assert a <= rest + {(n - 1, 0)} + {(n - 1, 1)} + {(n - 1, 2)};
      SubsetSize(a, rest + {(n - 1, 0)} + {(n - 1, 1)} + {(n - 1, 2)});
    }
  }

  lemma KnownLife(cfg: Config, es: seq<Event>, m: MessageId)
    requires m in Run(cfg, es).lives
    ensures LifeOk(cfg, Run(cfg, es), m) && OnceOk(Run(cfg, es), m)
  {
    EveryRun(cfg, es);
    assert MessageOk(cfg, Run(cfg, es), m);
  }

  /** Whatever fails, a message is sent at most three times per claim and answered 2xx at most once per claim. */
  lemma SendsBoundedByClaims(cfg: Config, es: seq<Event>, m: MessageId)
    requires m in Run(cfg, es).lives
    ensures var l := Run(cfg, es).lives[m]; l.sends <= 3 * |l.claims| && l.accepts <= |l.claims|
  {
    KnownLife(cfg, es, m);
    var l := Run(cfg, es).lives[m];
    AttemptsSize(l.sent, |l.claims|);
    BoundedSize(l.accepted, |l.claims|);
  }

  lemma OnceMeansOnce(s: Sys, m: MessageId)
    requires m in s.lives && OnceOk(s, m) && CountsOk(s.lives[m])
    ensures var l := s.lives[m]; l.accepts <= 1 || l.overrun || l.lost
  {
    var l := s.lives[m];
    if !l.overrun && !l.lost && l.accepted != {} {
      SubsetSize(l.accepted, {|l.claims| - 1});
    }
  }

  /** No message is answered 2xx twice unless a claimed run outlived its claim or a write after a 2xx was lost. */
  lemma AcceptedAtMostOnce(cfg: Config, es: seq<Event>, m: MessageId)
    requires m in Run(cfg, es).lives
    ensures var l := Run(cfg, es).lives[m]; l.accepts <= 1 || l.overrun || l.lost
  {
    KnownLife(cfg, es, m);
    OnceMeansOnce(Run(cfg, es), m);
  }

  // ----- the daily cap

  predicate CreatedIn(s: Sys, m: MessageId, b: Bucket) {
    m in s.t.messages && Bucket(s.t.messages[m].tenant, s.t.messages[m].phone, DayOf(s.t.messages[m].createdAt)) == b
  }

  function CreatedMessages(s: Sys, b: Bucket): set<MessageId> {
    set m | m in s.lives && CreatedIn(s, m, b)
  }

  function AcceptedMessages(s: Sys, b: Bucket): set<MessageId> {
    set m | m in s.lives && s.lives[m].accepts > 0 && CreatedIn(s, m, b)
  }

  lemma CapHolds(cfg: Config, s: Sys, b: Bucket)
    requires Inv(cfg, s)
    ensures |AcceptedMessages(s, b)| <= Max0(cfg.maxPerDay)
  {
    forall m <- AcceptedMessages(s, b) ensures m in Charged(s, b) {
      assert MessageOk(cfg, s, m);
      AcceptedIsCharged(s, m, b);
    }
    SubsetSize(AcceptedMessages(s, b), Charged(s, b));
    assert CapCount(s.t, b) == |Charged(s, b)|;
  }

  lemma AcceptedIsCharged(s: Sys, m: MessageId, b: Bucket)
    requires m in s.calls && m in s.lives && CallOk(s, m) && s.lives[m].accepts > 0 && CreatedIn(s, m, b)
    ensures m in Charged(s, b)
  {
  }

  /** In every run, at most max(0, MaxPerDay) of the messages created for one tenant, phone
      and UTC day are ever accepted by the provider, however many are created concurrently. */
  lemma DailyCap(cfg: Config, es: seq<Event>, b: Bucket)
    ensures |AcceptedMessages(Run(cfg, es), b)| <= Max0(cfg.maxPerDay)
  {
    EveryRun(cfg, es);
    CapHolds(cfg, Run(cfg, es), b);
  }

  ghost function AnyOf(ids: set<MessageId>): (m: MessageId)
    requires ids != {}
    ensures m in ids
  {
    var m :| m in ids; m
  }

  /** How often the messages `ids` have been answered 2xx, all together. */
  ghost function Accepts(s: Sys, ids: set<MessageId>): nat
    requires ids <= s.lives.Keys
  {
    if ids == {} then 0 else s.lives[AnyOf(ids)].accepts + Accepts(s, ids - {AnyOf(ids)})
  }

  /** Any message can be counted first. */
  lemma {:induction false} AcceptsOfOne(s: Sys, ids: set<MessageId>, m: MessageId)
    requires ids <= s.lives.Keys && m in ids
    ensures Accepts(s, ids) == s.lives[m].accepts + Accepts(s, ids - {m})
    decreases ids
  {
    var n := AnyOf(ids);
    if n != m {
      AcceptsOfOne(s, ids - {n}, m);
      AcceptsOfOne(s, ids - {m}, n);
      assert ids - {n} - {m} == ids - {m} - {n};
    }
  }

  /** The acceptances of the messages created for one tenant, phone and UTC day. */
  ghost function Acceptances(s: Sys, b: Bucket): nat {
    Accepts(s, CreatedMessages(s, b))
  }

  function AcceptedAmong(s: Sys, ids: set<MessageId>): set<MessageId>
    requires ids <= s.lives.Keys
  {
    set m | m in ids && s.lives[m].accepts > 0
  }

  lemma {:induction false} OncePerMessage(s: Sys, ids: set<MessageId>)
    requires ids <= s.lives.Keys && forall m <- ids :: s.lives[m].accepts <= 1
    ensures Accepts(s, ids) == |AcceptedAmong(s, ids)|
    decreases ids
  {
    if ids == {} {
      assert AcceptedAmong(s, ids) <= ids;
    } else {
      var n := AnyOf(ids);
      OncePerMessage(s, ids - {n});
      var rest := AcceptedAmong(s, ids - {n});
      assert AcceptedAmong(s, ids) == if s.lives[n].accepts > 0 then rest + {n} else rest;
    }
  }

  /** For the messages of bucket `b`, no claimed run outlived its claim and no write after a 2xx was lost. */
  ghost predicate AllWell(s: Sys, b: Bucket) {
    forall m <- s.lives :: CreatedIn(s, m, b) ==> !s.lives[m].overrun && !s.lives[m].lost
  }

  lemma EachOnce(cfg: Config, s: Sys, b: Bucket)
    requires Inv(cfg, s) && AllWell(s, b)
    ensures forall m <- CreatedMessages(s, b) :: s.lives[m].accepts <= 1
  {
    forall m <- CreatedMessages(s, b) ensures s.lives[m].accepts <= 1 {
      assert MessageOk(cfg, s, m);
      OnceMeansOnce(s, m);
    }
  }

  lemma OncePerAccepted(s: Sys, b: Bucket)
    requires forall m <- CreatedMessages(s, b) :: s.lives[m].accepts <= 1
    ensures Acceptances(s, b) == |AcceptedMessages(s, b)|
  {
    OncePerMessage(s, CreatedMessages(s, b));
    assert AcceptedAmong(s, CreatedMessages(s, b)) == AcceptedMessages(s, b);
  }

  lemma AcceptancesBounded(cfg: Config, s: Sys, b: Bucket)
    requires Inv(cfg, s) && AllWell(s, b)
    ensures Acceptances(s, b) <= Max0(cfg.maxPerDay)
  {
    CapHolds(cfg, s, b);
    EachOnce(cfg, s, b);
    OncePerAccepted(s, b);
  }

  /** End to end: when every claimed run ends before its claim goes stale and the writes after
      each 2xx succeed, the provider answers 2xx at most max(0, MaxPerDay) times for the messages
      created for one tenant, phone and UTC day. */
  lemma EndToEnd(cfg: Config, es: seq<Event>, b: Bucket)
    requires AllWell(Run(cfg, es), b)
    ensures Acceptances(Run(cfg, es), b) <= Max0(cfg.maxPerDay)
  {
    EveryRun(cfg, es);
    AcceptancesBounded(cfg, Run(cfg, es), b);
  }

  // ----- idempotent creation

  predicate SameKey(c: ApiCall, d: ApiCall) {
    c.request.tenant == d.request.tenant && c.request.key == d.request.key
  }

  predicate Answered(pc: A.Pc) {
    pc.Done? && !pc.reply.Error?
  }

  function RepliedId(reply: A.Reply): MessageId
    requires !reply.Error?
  {
    reply.id
  }

  /** Of all API calls for one tenant and key, at most one has a row, at most one is ever charged
      to a cap, at most one job is ever made, and all successful replies name that one message. */
  lemma IdempotentCreation(cfg: Config, es: seq<Event>, m: MessageId, n: MessageId)
    requires m in Run(cfg, es).calls && n in Run(cfg, es).calls && SameKey(Run(cfg, es).calls[m], Run(cfg, es).calls[n])
    ensures var s := Run(cfg, es);
            && (m in s.t.messages && n in s.t.messages ==> m == n)
            && (m in Charged(s, BucketOfCall(s.calls[m])) && n in Charged(s, BucketOfCall(s.calls[n])) ==> m == n)
            && (m in s.jobs && n in s.jobs ==> m == n) && s.jobs[m] <= 1
            && (Answered(s.calls[m].pc) && Answered(s.calls[n].pc) ==>
                  RepliedId(s.calls[m].pc.reply) == RepliedId(s.calls[n].pc.reply))
            && (Answered(s.calls[m].pc) ==> RepliedId(s.calls[m].pc.reply) in s.t.messages)
  {
    EveryRun(cfg, es);
    var s := Run(cfg, es);
    assert MessageOk(cfg, s, m) && MessageOk(cfg, s, n);
    if Answered(s.calls[m].pc) && Answered(s.calls[n].pc) {
      NamesTheRow(cfg, s, m);
      NamesTheRow(cfg, s, n);
    }
  }

  lemma NamesTheRow(cfg: Config, s: Sys, m: MessageId)
    requires Inv(cfg, s) && m in s.calls && Answered(s.calls[m].pc)
    ensures var c := s.calls[m]; var k := (c.request.tenant, c.request.key);
            k in s.t.byKey && s.t.byKey[k] == RepliedId(c.pc.reply)
  {
    assert MessageOk(cfg, s, m);
  }

  /** The call has been turned away at a gate, or ended with anything but a new message. */
  predicate TurnedAway(s: Sys, m: MessageId) {
    m in s.calls && (s.calls[m].pc.Marking? || (s.calls[m].pc.Done? && !s.calls[m].pc.reply.Created?))
  }

  lemma TurnedAwayStays(cfg: Config, s: Sys, m: MessageId, e: Event)
    requires TurnedAway(s, m)
    ensures TurnedAway(Apply(cfg, s, e), m)
  {
  }

  lemma {:induction false} TurnedAwayForEver(cfg: Config, s: Sys, m: MessageId, es: seq<Event>)
    requires TurnedAway(s, m)
    ensures TurnedAway(RunFrom(cfg, s, es), m)
    decreases |es|
  {
    if es != [] {
      TurnedAwayStays(cfg, s, m, es[0]);
      TurnedAwayForEver(cfg, Apply(cfg, s, es[0]), m, es[1..]);
    }
  }

  /** A message that failed suppression, consent, the cap or its enqueue never gets a job, a claim
      or a send, at that time or later, even when marking its row fails too. */
  lemma NoJobWhenTurnedAway(cfg: Config, past: seq<Event>, m: MessageId, future: seq<Event>)
    requires TurnedAway(Run(cfg, past), m)
    ensures var u := RunFrom(cfg, Run(cfg, past), future);
            m !in u.jobs && m in u.lives && u.lives[m] == NEW_LIFE
            && (forall w <- u.workers :: u.workers[w].id != m)
  {
    EveryRun(cfg, past);
    RunKeeps(cfg, Run(cfg, past), future);
    TurnedAwayForEver(cfg, Run(cfg, past), m, future);
    var u := RunFrom(cfg, Run(cfg, past), future);
    assert MessageOk(cfg, u, m);
    NoJobNoWorker(u, m);
  }

  /** A refused message answers "rejected" whether or not its row says so: unless the mark took
      effect the row stays `queued`.  Only a failed suppression mark is reported to the caller. */
  lemma RejectedRowIsMarkedIffWritten(cfg: Config, es: seq<Event>, m: MessageId, ch: Choice)
    requires TurnedAway(Run(cfg, es), m) && Run(cfg, es).calls[m].pc.Marking?
    ensures var s := Run(cfg, es); var u := DoApi(cfg, s, m, ch); var reason := s.calls[m].pc.reason;
            && m in u.t.messages && u.calls[m].pc.Done?
            && u.t.messages[m].state == (if ch.fault.LostBefore? then Queued else A.ReasonState(reason))
            && (u.calls[m].pc.reply == A.Rejected(m) <==>
                  reason.NotOptedIn? || reason.CapExceeded? || (reason.OnSuppressionList? && ch.fault.Works?))
  {
    EveryRun(cfg, es);
    assert MessageOk(cfg, Run(cfg, es), m);
    MarkStep(cfg, Run(cfg, es), m, ch);
  }

  lemma MarkStep(cfg: Config, s: Sys, m: MessageId, ch: Choice)
    requires m in s.calls && m in s.lives && CallOk(s, m) && s.calls[m].pc.Marking?
    ensures var u := DoApi(cfg, s, m, ch); var reason := s.calls[m].pc.reason;
            && m in u.t.messages && u.calls[m].pc.Done?
            && u.t.messages[m].state == (if ch.fault.LostBefore? then Queued else A.ReasonState(reason))
            && (u.calls[m].pc.reply == A.Rejected(m) <==>
                  reason.NotOptedIn? || reason.CapExceeded? || (reason.OnSuppressionList? && ch.fault.Works?))
  {
  }

  // ----- phases

  function Rank(state: State): int {
    match state
    case Queued => 0
    case Processing => 1
    case Submitted => 2
    case Suppressed => 3
    case Delivered => 3
    case Failed => 3
  }

  /** What may happen to message `m` between `s` and a later `u`. */
  ghost predicate Progressed(s: Sys, u: Sys, m: MessageId) {
    && m in s.t.messages && m in u.t.messages && m in s.lives && m in u.lives
    && var r, r', l, l' := s.t.messages[m], u.t.messages[m], s.lives[m], u.lives[m];
    && (r.tenant, r.key, r.phone, r.createdAt) == (r'.tenant, r'.key, r'.phone, r'.createdAt)
    && (r'.state.Queued? ==> r.state.Queued?)
    && (r'.state.Processing? ==> Fresh(r.state))
    && l.claims <= l'.claims && l.sends <= l'.sends && l.accepts <= l'.accepts && l.sent <= l'.sent && l.accepted <= l'.accepted
    && (l.acked ==> l'.acked) && (l.early ==> l'.early) && (l.overrun ==> l'.overrun) && (l.lost ==> l'.lost)
    && (!l'.overrun ==> Rank(r.state) <= Rank(r'.state))
  }

  lemma NothingHappened(s: Sys, m: MessageId)
    requires m in s.t.messages && s.t.messages.Keys <= s.calls.Keys && s.calls.Keys == s.lives.Keys
    ensures Progressed(s, s, m)
  {
  }

  lemma SettledProgress(s: Sys, t: Tables, m: MessageId)
    requires m in s.t.messages && m in s.lives && Settles(s.t, t)
    ensures Progressed(s, s.(t := t), m)
  {
  }

  lemma ApiProgress(cfg: Config, s: Sys, n: MessageId, ch: Choice, m: MessageId)
    requires n in s.calls && n in s.lives && CallOk(s, n) && !s.calls[n].pc.Done? && m in s.t.messages && m in s.lives
    ensures Progressed(s, DoApi(cfg, s, n, ch), m)
  {
  }

  lemma WorkProgress(cfg: Config, s: Sys, w: nat, ch: Choice, m: MessageId)
    requires Running(s, w) && WorkerOk(s, w) && m in s.t.messages && m in s.lives
    ensures Progressed(s, DoWork(cfg, s, w, ch), m)
  {
    var x := s.workers[w];
    WorkTouches(cfg, s.t, x, ch);
    if x.id == m {
      if x.pc.Claiming? { ClaimProgress(cfg, s, w, ch); } else { OtherWorkProgress(cfg, s, w, ch); }
    }
  }

  lemma ClaimProgress(cfg: Config, s: Sys, w: nat, ch: Choice)
    requires Running(s, w) && WorkerOk(s, w) && s.workers[w].pc.Claiming?
    ensures Progressed(s, DoWork(cfg, s, w, ch), s.workers[w].id)
  {
  }

  lemma OtherWorkProgress(cfg: Config, s: Sys, w: nat, ch: Choice)
    requires Running(s, w) && WorkerOk(s, w) && !s.workers[w].pc.Claiming?
    ensures Progressed(s, DoWork(cfg, s, w, ch), s.workers[w].id)
  {
  }

  lemma WorkEventProgress(cfg: Config, s: Sys, e: Event, m: MessageId)
    requires s.calls.Keys == s.lives.Keys && m in s.t.messages && m in s.lives && (e.Deliver? || e.WorkStep? || e.Crash?)
    requires e.w in s.workers ==> WorkerOk(s, e.w)
    ensures Progressed(s, Apply(cfg, s, e), m)
  {
    if e.WorkStep? && Running(s, e.w) { WorkProgress(cfg, s, e.w, e.choice, m); }
  }

  lemma ApiEventProgress(cfg: Config, s: Sys, e: Event, m: MessageId)
    requires e.ApiStart? || e.ApiStep?
    requires e.m in s.calls ==> e.m in s.lives && CallOk(s, e.m)
    requires m in s.t.messages && m in s.lives && m in s.calls
    ensures Progressed(s, Apply(cfg, s, e), m)
  {
    if e.ApiStep? && e.m in s.calls && !s.calls[e.m].pc.Done? {
      ApiProgress(cfg, s, e.m, e.choice, m);
    }
  }

  lemma KnownMessage(cfg: Config, s: Sys, m: MessageId)
    requires Inv(cfg, s) && m in s.t.messages
    ensures m in s.calls && m in s.lives && s.calls.Keys == s.lives.Keys
  {
  }

  lemma ApiSideProgress(cfg: Config, s: Sys, e: Event, m: MessageId)
    requires Inv(cfg, s) && m in s.t.messages && (e.ApiStart? || e.ApiStep?)
    ensures Progressed(s, Apply(cfg, s, e), m)
  {
    KnownMessage(cfg, s, m);
    if e.m in s.calls { assert MessageOk(cfg, s, e.m); }
    ApiEventProgress(cfg, s, e, m);
  }

  lemma WorkSideProgress(cfg: Config, s: Sys, e: Event, m: MessageId)
    requires Inv(cfg, s) && m in s.t.messages && (e.Deliver? || e.WorkStep? || e.Crash?)
    ensures Progressed(s, Apply(cfg, s, e), m)
  {
    KnownMessage(cfg, s, m);
    WorkEventProgress(cfg, s, e, m);
  }

  lemma EventProgress(cfg: Config, s: Sys, e: Event, m: MessageId)
    requires Inv(cfg, s) && m in s.t.messages
    ensures Progressed(s, Apply(cfg, s, e), m)
  {
    if e.ApiStart? || e.ApiStep? {
      ApiSideProgress(cfg, s, e, m);
    } else if e.Deliver? || e.WorkStep? || e.Crash? {
      WorkSideProgress(cfg, s, e, m);
    } else {
      OutsideEventProgress(cfg, s, e, m);
    }
  }

  lemma OutsideEventProgress(cfg: Config, s: Sys, e: Event, m: MessageId)
    requires Inv(cfg, s) && m in s.t.messages && (e.ProviderUpdate? || e.ProviderEvent? || e.Reconcile?)
    ensures Progressed(s, Apply(cfg, s, e), m)
  {
    OutsideEventSettles(cfg, s, e);
    SettledProgress(s, Apply(cfg, s, e).t, m);
  }

  lemma ProgressChains(s: Sys, u: Sys, v: Sys, m: MessageId)
    requires Progressed(s, u, m) && Progressed(u, v, m)
    ensures Progressed(s, v, m)
  {
  }

  lemma {:induction false} RunProgress(cfg: Config, s: Sys, es: seq<Event>, m: MessageId)
    requires Inv(cfg, s) && m in s.t.messages
    ensures Progressed(s, RunFrom(cfg, s, es), m)
    decreases |es|
  {
    if es == [] {
      NothingHappened(s, m);
    } else {
      var u := Apply(cfg, s, es[0]);
      EventProgress(cfg, s, es[0], m);
      EventKeeps(cfg, s, es[0]);
      RunProgress(cfg, u, es[1..], m);
      ProgressChains(s, u, RunFrom(cfg, u, es[1..]), m);
    }
  }

  /** Rows never vanish, never re-enter `queued`, never re-enter `processing` once they have left
      it, and, unless a claimed run outlived its claim, never move back. */
  lemma PhasesOnlyAdvance(cfg: Config, past: seq<Event>, future: seq<Event>, m: MessageId)
    requires m in Run(cfg, past).t.messages
    ensures Progressed(Run(cfg, past), RunFrom(cfg, Run(cfg, past), future), m)
  {
    EveryRun(cfg, past);
    RunProgress(cfg, Run(cfg, past), future, m);
  }

  /** In every reachable state: a row in `processing` carries the time of its last claim, and a row
      with a provider id is neither `queued` nor `processing`. */
  lemma ProcessingRowsAreClaimed(cfg: Config, es: seq<Event>, m: MessageId)
    requires m in Run(cfg, es).t.messages
    ensures var s := Run(cfg, es); var r := s.t.messages[m];
            && m in s.lives
            && (r.state.Queued? ==> s.lives[m].claims == [])
            && (r.state.Processing? ==> s.lives[m].claims != [] && r.updatedAt == s.lives[m].claims[|s.lives[m].claims| - 1].at)
            && (r.sid != None || r.provider != None ==> !Fresh(r.state))
  {
    EveryRun(cfg, es);
    assert MessageOk(cfg, Run(cfg, es), m);
  }

  // ----- no loss

  predicate Settled(state: State) {
    state.Submitted? || state.Delivered? || state.Failed? || state.Suppressed?
  }

  /** Once a job is acknowledged its row is not `queued`, then or ever after; and unless a redelivery
      was processed before the previous claim had gone stale, it is settled, then and ever after. */
  lemma NoLoss(cfg: Config, past: seq<Event>, future: seq<Event>, m: MessageId)
    requires m in Run(cfg, past).lives && Run(cfg, past).lives[m].acked
    ensures var u := RunFrom(cfg, Run(cfg, past), future);
            && m in Run(cfg, past).t.messages && m in u.t.messages
            && !u.t.messages[m].state.Queued?
            && (!Run(cfg, past).lives[m].early ==> Settled(u.t.messages[m].state))
  {
    EveryRun(cfg, past);
    assert MessageOk(cfg, Run(cfg, past), m);
    RunProgress(cfg, Run(cfg, past), future, m);
  }

  /** A step that ends a run with success leaves the row settled if and only if it is not a claim
      refused while the previous one is not yet stale. */
  lemma AcknowledgedSettledIffNotRefused(cfg: Config, es: seq<Event>, w: nat, ch: Choice)
    requires Running(Run(cfg, es), w) && NextPc(cfg, Run(cfg, es).t, Run(cfg, es).workers[w], ch) == W.Done(true)
    ensures var s := Run(cfg, es); var x, u := s.workers[w], DoWork(cfg, s, w, ch);
            x.id in u.t.messages && (Settled(u.t.messages[x.id].state) <==> !Refused(cfg, s.t, x, ch))
  {
    EveryRun(cfg, es);
    assert WorkerOk(Run(cfg, es), w);
    SuccessStep(cfg, Run(cfg, es), w, ch);
  }

  lemma SuccessStep(cfg: Config, s: Sys, w: nat, ch: Choice)
    requires Running(s, w) && WorkerOk(s, w) && NextPc(cfg, s.t, s.workers[w], ch) == W.Done(true)
    ensures var x, u := s.workers[w], DoWork(cfg, s, w, ch);
            x.id in u.t.messages && (Settled(u.t.messages[x.id].state) <==> !Refused(cfg, s.t, x, ch))
  {
  }

  /** And a claim is refused that way if and only if its answer arrives, the row is in `processing`,
      and it carries a time at most staleAfter past that of the last claim. */
  lemma RefusedIffNotYetStale(cfg: Config, es: seq<Event>, w: nat, ch: Choice)
    requires Running(Run(cfg, es), w) && Run(cfg, es).workers[w].pc.Claiming?
    ensures var s := Run(cfg, es); var x := s.workers[w]; var claims := s.lives[x.id].claims;
            Refused(cfg, s.t, x, ch) <==>
              && ch.fault.Works? && x.id in s.t.messages && s.t.messages[x.id].state.Processing?
              && claims != [] && ch.now <= claims[|claims| - 1].at + W.StaleAfter(cfg.worker)
  {
    EveryRun(cfg, es);
    assert WorkerOk(Run(cfg, es), w) && MessageOk(cfg, Run(cfg, es), Run(cfg, es).workers[w].id);
  }

  // ----- the last terminal update wins

  predicate Disturbs(e: Event, r: Row) {
    e.ProviderUpdate? && Matches(r, e.provider, e.sid)
  }

  /** No provider update among the events matches the row. */
  ghost predicate Undisturbed(es: seq<Event>, r: Row) {
    forall e <- es :: !Disturbs(e, r)
  }

  lemma UndisturbedAfter(es: seq<Event>, r: Row, r': Row)
    requires Undisturbed(es, r) && r'.provider == r.provider && r'.sid == r.sid
    ensures Undisturbed(es, r')
  {
    forall e <- es ensures !Disturbs(e, r') {
      assert !Disturbs(e, r);
    }
  }

  lemma WorkLeavesTerminal(cfg: Config, s: Sys, w: nat, ch: Choice)
    requires Running(s, w) && WorkerOk(s, w) && Terminal(s.t.messages[s.workers[w].id].state)
    requires !s.lives[s.workers[w].id].overrun
    ensures DoWork(cfg, s, w, ch).t.messages == s.t.messages
  {
  }

  lemma ApiLeavesTerminal(cfg: Config, s: Sys, n: MessageId, ch: Choice, m: MessageId)
    requires n in s.calls && n in s.lives && CallOk(s, n) && !s.calls[n].pc.Done?
    requires m in s.t.messages && Terminal(s.t.messages[m].state)
    ensures var u := DoApi(cfg, s, n, ch); m in u.t.messages && u.t.messages[m] == s.t.messages[m]
  {
    ApiTouches(cfg, s.t, n, s.calls[n], ch);
  }

  lemma WorkEventLeavesTerminal(cfg: Config, s: Sys, e: Event, m: MessageId)
    requires Inv(cfg, s) && m in s.t.messages && m in s.lives && Terminal(s.t.messages[m].state) && !s.lives[m].overrun
    requires e.Deliver? || e.WorkStep? || e.Crash?
    ensures var u := Apply(cfg, s, e); m in u.t.messages && u.t.messages[m] == s.t.messages[m]
  {
    SameKeys(cfg, s);
    if e.WorkStep? && Running(s, e.w) { assert WorkerOk(s, e.w); }
    WorkEventLeavesRow(cfg, s, e, m);
  }

  lemma WorkEventLeavesRow(cfg: Config, s: Sys, e: Event, m: MessageId)
    requires s.calls.Keys == s.lives.Keys && (e.Deliver? || e.WorkStep? || e.Crash?)
    requires e.WorkStep? && Running(s, e.w) ==> WorkerOk(s, e.w)
    requires m in s.t.messages && m in s.lives && Terminal(s.t.messages[m].state) && !s.lives[m].overrun
    ensures var u := Apply(cfg, s, e); m in u.t.messages && u.t.messages[m] == s.t.messages[m]
  {
    WorkEventCases(cfg, s, e);
    if e.WorkStep? && Running(s, e.w) { WorkStepLeavesTerminal(cfg, s, e.w, e.choice, m); }
  }

  lemma WorkStepLeavesTerminal(cfg: Config, s: Sys, w: nat, ch: Choice, m: MessageId)
    requires Running(s, w) && WorkerOk(s, w)
    requires m in s.t.messages && m in s.lives && Terminal(s.t.messages[m].state) && !s.lives[m].overrun
    ensures var u := DoWork(cfg, s, w, ch); m in u.t.messages && u.t.messages[m] == s.t.messages[m]
  {
    if s.workers[w].id == m { WorkLeavesTerminal(cfg, s, w, ch); } else { WorkTouches(cfg, s.t, s.workers[w], ch); }
  }

  lemma EventLeavesTerminal(cfg: Config, s: Sys, e: Event, m: MessageId)
    requires Inv(cfg, s) && m in s.t.messages && m in s.lives && Terminal(s.t.messages[m].state) && !s.lives[m].overrun
    requires !Disturbs(e, s.t.messages[m])
    ensures var u := Apply(cfg, s, e); m in u.t.messages && u.t.messages[m] == s.t.messages[m]
  {
    if e.ApiStart? || e.ApiStep? {
      ApiEventLeavesTerminal(cfg, s, e, m);
    } else if e.Deliver? || e.WorkStep? || e.Crash? {
      WorkEventLeavesTerminal(cfg, s, e, m);
    } else {
      OutsideEventLeavesTerminal(cfg, s, e, m);
    }
  }

  lemma ApiEventLeavesTerminal(cfg: Config, s: Sys, e: Event, m: MessageId)
    requires Inv(cfg, s) && m in s.t.messages && Terminal(s.t.messages[m].state) && (e.ApiStart? || e.ApiStep?)
    ensures var u := Apply(cfg, s, e); m in u.t.messages && u.t.messages[m] == s.t.messages[m]
  {
    if e.ApiStep? && e.m in s.calls && !s.calls[e.m].pc.Done? {
      assert MessageOk(cfg, s, e.m);
      ApiLeavesTerminal(cfg, s, e.m, e.choice, m);
    }
  }

  lemma OutsideEventLeavesTerminal(cfg: Config, s: Sys, e: Event, m: MessageId)
    requires m in s.t.messages && Terminal(s.t.messages[m].state) && !Disturbs(e, s.t.messages[m])
    requires e.ProviderUpdate? || e.ProviderEvent? || e.Reconcile?
    ensures var u := Apply(cfg, s, e); m in u.t.messages && u.t.messages[m] == s.t.messages[m]
  {
  }

  lemma {:induction false} RunLeavesTerminal(cfg: Config, s: Sys, es: seq<Event>, m: MessageId)
    requires Inv(cfg, s) && m in s.t.messages && m in s.lives && Terminal(s.t.messages[m].state)
    requires Undisturbed(es, s.t.messages[m])
    requires m in RunFrom(cfg, s, es).lives ==> !RunFrom(cfg, s, es).lives[m].overrun
    ensures var u := RunFrom(cfg, s, es); m in u.t.messages && u.t.messages[m] == s.t.messages[m]
    decreases |es|
  {
    RunProgress(cfg, s, es, m);
    if es != [] {
      EventLeavesTerminal(cfg, s, es[0], m);
      EventKeeps(cfg, s, es[0]);
      EventProgress(cfg, s, es[0], m);
      UndisturbedAfter(es[1..], s.t.messages[m], s.t.messages[m]);
      RunLeavesTerminal(cfg, Apply(cfg, s, es[0]), es[1..], m);
    }
  }

  lemma UpdateStep(cfg: Config, s: Sys, e: Event, m: MessageId)
    requires e.ProviderUpdate? && Terminal(e.state) && m in s.t.messages && Matches(s.t.messages[m], e.provider, e.sid)
    ensures var u := Apply(cfg, s, e);
            u.lives == s.lives && m in u.t.messages && u.t.messages[m] == Restated(s.t.messages[m], e.state, e.errorCode, e.now)
  {
  }

  lemma AfterUpdate(cfg: Config, past: seq<Event>, e: Event, m: MessageId)
    requires e.ProviderUpdate? && Terminal(e.state) && m in Run(cfg, past).t.messages
    requires Matches(Run(cfg, past).t.messages[m], e.provider, e.sid)
    ensures var s, u := Run(cfg, past), Apply(cfg, Run(cfg, past), e);
            && Inv(cfg, u) && m in u.lives && m in u.t.messages
            && u.t.messages[m] == Restated(s.t.messages[m], e.state, e.errorCode, e.now)
  {
    EveryRun(cfg, past);
    EventKeeps(cfg, Run(cfg, past), e);
    KnownMessage(cfg, Run(cfg, past), m);
    UpdateStep(cfg, Run(cfg, past), e, m);
  }

  /** In every run: a row keeps the state, error and time of the last terminal update that matched it,
      `delivered` or `failed`, whatever it was before and whatever else happens afterwards, unless a
      claimed run outlived its claim. */
  lemma LastTerminalUpdateWins(cfg: Config, past: seq<Event>, e: Event, future: seq<Event>, m: MessageId)
    requires e.ProviderUpdate? && Terminal(e.state) && m in Run(cfg, past).t.messages
    requires Matches(Run(cfg, past).t.messages[m], e.provider, e.sid)
    requires Undisturbed(future, Run(cfg, past).t.messages[m])
    requires var u := RunFrom(cfg, Apply(cfg, Run(cfg, past), e), future); m in u.lives ==> !u.lives[m].overrun
    ensures var u := RunFrom(cfg, Apply(cfg, Run(cfg, past), e), future);
            m in u.t.messages && u.t.messages[m] == Restated(Run(cfg, past).t.messages[m], e.state, e.errorCode, e.now)
  {
    AfterUpdate(cfg, past, e, m);
    UndisturbedAfter(future, Run(cfg, past).t.messages[m], Apply(cfg, Run(cfg, past), e).t.messages[m]);
    RunLeavesTerminal(cfg, Apply(cfg, Run(cfg, past), e), future, m);
  }
}
