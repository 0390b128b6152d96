/** The steps of the system are the questions of the programs, served by the tables; and what a worker
    sends is what the API call asked for. */
module Serving {
  import opened Boundary
  import opened Tables
  import W = Processor
  import A = Service
  import opened Template
  import opened System

  // ----- every step serves the question that the program asks

  /** What a statement of the API side, if it takes effect, does to the tables. */
  function ApiServed(t: Tables, q: A.Question): Tables {
    match q
    case Insert(id, row) => (match InsertMessage(t, id, row) case None => t case Some(u) => u)
    case IncrementCap(bucket, maxPerDay) => TestAndIncrement(t, bucket, maxPerDay).0
    case Mark(id, state, reason, now) => MarkMessageState(t, id, state, reason, now)
    case _ => t
  }

  /** And what the caller hears of it. */
  function ApiHeard(t: Tables, q: A.Question, ch: Choice): A.Answer {
    match q
    case Find(tenant, key) => A.Answer(ch.fault.Works?, FindByKey(t, tenant, key), false)
    case Insert(id, row) => A.Answer(ch.fault.Works? && InsertMessage(t, id, row).Some?, None, false)
    case IncrementCap(bucket, maxPerDay) => A.Answer(ch.fault.Works?, None, TestAndIncrement(t, bucket, maxPerDay).1)
    case _ => A.Answer(ch.fault.Works?, None, ch.yes)
  }

  /** One step of an API call asks its question of the shared tables; it creates a job exactly when an
      accepted enqueue is not taken for a duplicate. */
  lemma ApiStepServes(cfg: Config, s: Sys, m: MessageId, ch: Choice)
    requires m in s.calls && !s.calls[m].pc.Done?
    ensures var c, u := s.calls[m], DoApi(cfg, s, m, ch);
            var q := A.QuestionOf(c.request, m, c.now, cfg.maxPerDay, c.pc);
            && u.t == (if ch.fault.LostBefore? then s.t else ApiServed(s.t, q))
            && u.calls == s.calls[m := c.(pc := A.Next(m, c.pc, ApiHeard(s.t, q, ch)))]
            && u.jobs == (if q.Enqueue? && ch.fault.Works? && !ch.dropped then s.jobs + multiset{q.id} else s.jobs)
            && u.workers == s.workers && u.lives == s.lives
  {
  }

  /** What a statement of the worker, carrying time `now`, does to the tables if it takes effect. */
  function WorkServed(t: Tables, q: W.Question, now: int): Tables {
    match q
    case Claim(id, staleAfter) => ClaimMessage(t, id, now, staleAfter)
    case RecordAttempt(id, sid, status, failed) => InsertAttempt(t, Attempt(id, if sid == "" then None else Some(sid), status, failed))
    case SetDetails(id, provider, sid, state) => SetProviderDetails(t, id, provider, sid, state, now)
    case Mark(id, state, reason) => MarkMessageState(t, id, state, reason, now)
    case _ => t
  }

  /** And what the worker hears: a row or none, the verdict of its claim, a token or none, or the
      outcome of its call. */
  ghost predicate WorkHeard(t: Tables, q: W.Question, ch: Choice, a: W.Answer) {
    match q
    case GetMessage(id) =>
      a.ok == (ch.fault.Works? && id in t.messages)
      && (id in t.messages ==>
            var r, m := t.messages[id], a.message;
            && m.tenant == r.tenant && m.to == r.phone && m.template == r.template && m.vars == r.vars && m.state == r.state
            && m.sid == match r.sid case None => "" case Some(sid) => sid)
    case Claim(id, staleAfter) => a.ok == ch.fault.Works? && a.claimed == Claims(t, id, ch.now, staleAfter)
    case WaitForToken => a.ok == ch.yes
    case Send(_, _) => a.call == ch.call
    case _ => a.ok == ch.fault.Works?
  }

  /** One step of a worker asks its question of the shared tables. */
  lemma WorkStepServes(cfg: Config, s: Sys, w: nat, ch: Choice)
    requires w in s.workers && !s.workers[w].pc.Done? && s.workers[w].id in s.lives
    ensures var x, u := s.workers[w], DoWork(cfg, s, w, ch);
            var q := W.QuestionOf(cfg.worker, x.id, x.pc);
            && u.t == (if ch.fault.LostBefore? then s.t else WorkServed(s.t, q, ch.now))
            && WorkHeard(s.t, q, ch, WorkAnswer(cfg, s.t, x, ch))
            && u.workers.Keys == s.workers.Keys && u.workers[w].id == x.id
            && u.workers[w].pc == W.Next(cfg.worker, x.pc, WorkAnswer(cfg, s.t, x, ch))
            && u.calls == s.calls && u.jobs == s.jobs
  {
  }

  /** The history counts each call that reached the provider, each 2xx and each claim, and notes whether
      a run has returned nil, for the worker's own message only. */
  lemma HistoryCounts(cfg: Config, s: Sys, w: nat, ch: Choice)
    requires w in s.workers && !s.workers[w].pc.Done? && s.workers[w].id in s.lives
    ensures var x, u := s.workers[w], DoWork(cfg, s, w, ch);
            var q, l, l' := W.QuestionOf(cfg.worker, x.id, x.pc), s.lives[x.id], u.lives[x.id];
            && l'.sends == l.sends + (if q.Send? && !ch.call.BreakerOpen? then 1 else 0)
            && l'.accepts == l.accepts + (if q.Send? && ch.call.Accepted? then 1 else 0)
            && |l'.claims| == |l.claims| + (if q.Claim? && !ch.fault.LostBefore? && Claims(s.t, x.id, ch.now, q.staleAfter) then 1 else 0)
            && (l'.acked <==> l.acked || u.workers[w].pc == W.Done(true))
            && u.lives == s.lives[x.id := l']
  {
  }

  // ----- what is sent is what was asked for

  /** The row of a message says what its request said. */
  predicate Carries(r: Row, q: A.Request) {
    && r.tenant == q.tenant && r.key == q.key && r.phone == q.to && r.template == q.template && r.vars == q.vars
    && r.campaign == (if q.campaign == "" then None else Some(q.campaign))
  }

  ghost predicate RowsCarry(t: Tables, calls: map<MessageId, ApiCall>) {
    forall m <- t.messages :: m in calls && Carries(t.messages[m], calls[m].request)
  }

  /** What a worker holds in its hands comes from the request of its message. */
  ghost predicate Knows(cfg: W.Config, calls: map<MessageId, ApiCall>, x: Worker) {
    match x.pc
    case Claiming(m) =>
      x.id in calls && var q := calls[x.id].request; m.to == q.to && m.template == q.template && m.vars == q.vars
    case Limiting(_, to, body) => Holds(cfg, calls, x.id, to, body)
    case Calling(_, to, body) => Holds(cfg, calls, x.id, to, body)
    case RecordingError(_, to, body, _, _) => Holds(cfg, calls, x.id, to, body)
    case Napping(_, _, to, body) => Holds(cfg, calls, x.id, to, body)
    case _ => true
  }

  ghost predicate Holds(cfg: W.Config, calls: map<MessageId, ApiCall>, id: MessageId, to: string, body: string) {
    id in calls && var q := calls[id].request;
    to == q.to && q.template in cfg.templates && body == Render(cfg.templates[q.template], q.vars)
  }

  ghost predicate WorkersKnow(cfg: Config, s: Sys) {
    forall w <- s.workers :: Knows(cfg.worker, s.calls, s.workers[w])
  }

  /** Every call was started by an event, with its number normalized. */
  ghost predicate Started(calls: map<MessageId, ApiCall>, past: seq<Event>) {
    forall m <- calls :: exists i | 0 <= i < |past| :: StartOf(past[i], m, calls[m])
  }

  predicate StartOf(e: Event, m: MessageId, c: ApiCall) {
    e.ApiStart? && e.m == m && c.now == e.now && c.request == e.request.(to := A.NormalizePhone(e.request.to))
  }

  ghost predicate ContentOk(cfg: Config, s: Sys, past: seq<Event>) {
    RowsCarry(s.t, s.calls) && WorkersKnow(cfg, s) && Started(s.calls, past)
  }

  /** Calls stay, with their requests. */
  ghost predicate CallsStay(calls: map<MessageId, ApiCall>, calls': map<MessageId, ApiCall>) {
    forall m <- calls :: m in calls' && calls'[m].request == calls[m].request && calls'[m].now == calls[m].now
  }

  /** Every row is as it was in what it carries, or newly carries its request. */
  ghost predicate RowsStay(t: Tables, u: Tables, calls: map<MessageId, ApiCall>) {
    forall m <- u.messages ::
      || (m in t.messages && SameContent(t.messages[m], u.messages[m]))
      || (m in calls && Carries(u.messages[m], calls[m].request))
  }

  predicate SameContent(r: Row, r': Row) {
    r'.tenant == r.tenant && r'.key == r.key && r'.phone == r.phone && r'.template == r.template && r'.vars == r.vars && r'.campaign == r.campaign
  }

  lemma RowsFrame(t: Tables, u: Tables, calls: map<MessageId, ApiCall>, calls': map<MessageId, ApiCall>)
    requires RowsCarry(t, calls) && CallsStay(calls, calls') && RowsStay(t, u, calls)
    ensures RowsCarry(u, calls')
  {
  }

  lemma KnowsFrame(cfg: W.Config, calls: map<MessageId, ApiCall>, calls': map<MessageId, ApiCall>, x: Worker)
    requires Knows(cfg, calls, x) && CallsStay(calls, calls')
    ensures Knows(cfg, calls', x)
  {
  }

  lemma StartedFrame(calls: map<MessageId, ApiCall>, calls': map<MessageId, ApiCall>, past: seq<Event>, e: Event)
    requires Started(calls, past) && CallsStay(calls, calls')
    requires forall m <- calls' :: m in calls || StartOf(e, m, calls'[m])
    ensures Started(calls', past + [e])
  {
    forall m <- calls' ensures exists i | 0 <= i < |past + [e]| :: StartOf((past + [e])[i], m, calls'[m]) {
      if m in calls {
        var i :| 0 <= i < |past| && StartOf(past[i], m, calls[m]);
        assert StartOf((past + [e])[i], m, calls'[m]);
      } else {
        assert (past + [e])[|past|] == e;
      }
    }
  }

  // ----- each event

  lemma CallsFollow(cfg: Config, s: Sys, e: Event)
    ensures var u := Apply(cfg, s, e);
            CallsStay(s.calls, u.calls) && forall m <- u.calls :: m in s.calls || StartOf(e, m, u.calls[m])
  {
  }

  lemma TablesFollow(cfg: Config, s: Sys, e: Event)
    ensures RowsStay(s.t, Apply(cfg, s, e).t, s.calls)
  {
    match e
    case ApiStep(m, ch) => if m in s.calls && !s.calls[m].pc.Done? { ApiTablesFollow(cfg, s, m, ch); }
    case WorkStep(w, ch) => if w in s.workers && !s.workers[w].pc.Done? && s.workers[w].id in s.lives { WorkTablesFollow(cfg, s, w, ch); }
    case ProviderUpdate(provider, sid, state, errorCode, now) => UpdateFollows(s, provider, sid, state, errorCode, now);
    case Reconcile(fixes, now) => ReconcileFollows(s, fixes, now);
    case _ => assert Apply(cfg, s, e).t.messages == s.t.messages;
  }

  lemma UpdateFollows(s: Sys, provider: string, sid: string, state: State, errorCode: string, now: int)
    ensures RowsStay(s.t, UpdateByProviderMsgID(s.t, provider, sid, state, errorCode, now), s.calls)
    ensures RowsStay(s.t, s.t, s.calls)
  {
  }

  lemma ReconcileFollows(s: Sys, fixes: map<MessageId, (State, string)>, now: int)
    ensures RowsStay(s.t, DoReconcile(s.t, fixes, now), s.calls)
  {
  }

  lemma ApiTablesFollow(cfg: Config, s: Sys, m: MessageId, ch: Choice)
    requires m in s.calls && !s.calls[m].pc.Done?
    ensures RowsStay(s.t, ApiTables(cfg, s.t, m, s.calls[m], ch), s.calls)
  {
  }

  lemma WorkTablesFollow(cfg: Config, s: Sys, w: nat, ch: Choice)
    requires w in s.workers && !s.workers[w].pc.Done?
    ensures RowsStay(s.t, WorkTables(cfg, s.t, s.workers[w], ch), s.calls)
  {
  }

  lemma KnowsNext(cfg: Config, t: Tables, calls: map<MessageId, ApiCall>, x: Worker, ch: Choice)
    requires RowsCarry(t, calls) && Knows(cfg.worker, calls, x) && !x.pc.Done?
    ensures forall n :: Knows(cfg.worker, calls, Worker(x.id, NextPc(cfg, t, x, ch), n))
  {
    match x.pc
    case Reading => KnowsRead(cfg, t, calls, x, ch);
    case Claiming(_) => KnowsClaimed(cfg, t, calls, x, ch);
    case _ =>
  }

  lemma KnowsRead(cfg: Config, t: Tables, calls: map<MessageId, ApiCall>, x: Worker, ch: Choice)
    requires RowsCarry(t, calls) && x.pc.Reading?
    ensures forall n :: Knows(cfg.worker, calls, Worker(x.id, NextPc(cfg, t, x, ch), n))
  {
    if x.id in t.messages { assert Carries(t.messages[x.id], calls[x.id].request); }
  }

  lemma KnowsClaimed(cfg: Config, t: Tables, calls: map<MessageId, ApiCall>, x: Worker, ch: Choice)
    requires Knows(cfg.worker, calls, x) && x.pc.Claiming?
    ensures forall n :: Knows(cfg.worker, calls, Worker(x.id, NextPc(cfg, t, x, ch), n))
  {
  }

  lemma WorkersFollow(cfg: Config, s: Sys, e: Event)
    requires RowsCarry(s.t, s.calls) && WorkersKnow(cfg, s)
    ensures forall w <- Apply(cfg, s, e).workers :: Knows(cfg.worker, s.calls, Apply(cfg, s, e).workers[w])
  {
    var u := Apply(cfg, s, e);
    if e.WorkStep? && e.w in s.workers && !s.workers[e.w].pc.Done? && s.workers[e.w].id in s.lives {
      KnowsNext(cfg, s.t, s.calls, s.workers[e.w], e.choice);
    }
    forall w <- u.workers ensures Knows(cfg.worker, s.calls, u.workers[w]) {
      if w in s.workers { assert Knows(cfg.worker, s.calls, s.workers[w]); }
    }
  }

  lemma EventKeepsContent(cfg: Config, s: Sys, past: seq<Event>, e: Event)
    requires ContentOk(cfg, s, past)
    ensures ContentOk(cfg, Apply(cfg, s, e), past + [e])
  {
    var u := Apply(cfg, s, e);
    CallsFollow(cfg, s, e);
    TablesFollow(cfg, s, e);
    RowsFrame(s.t, u.t, s.calls, u.calls);
    StartedFrame(s.calls, u.calls, past, e);
    WorkersFollow(cfg, s, e);
    forall w <- u.workers ensures Knows(cfg.worker, u.calls, u.workers[w]) {
      KnowsFrame(cfg.worker, s.calls, u.calls, u.workers[w]);
    }
  }

  lemma {:induction false} RunKeepsContent(cfg: Config, s: Sys, past: seq<Event>, es: seq<Event>)
    requires ContentOk(cfg, s, past)
    ensures ContentOk(cfg, RunFrom(cfg, s, es), past + es)
    decreases |es|
  {
    if es == [] {
      assert past + es == past;
    } else {
      EventKeepsContent(cfg, s, past, es[0]);
      assert past + [es[0]] + es[1..] == past + es;
      RunKeepsContent(cfg, Apply(cfg, s, es[0]), past + [es[0]], es[1..]);
    }
  }

  /** In every run, whatever a worker is about to send goes to the normalized number of the request that
      created its message, and is the template of that request rendered with its variables. */
  lemma SendsWhatWasRequested(cfg: Config, es: seq<Event>, w: nat) returns (i: nat)
    requires var s := Run(cfg, es); w in s.workers && s.workers[w].pc.Calling?
    ensures var x := Run(cfg, es).workers[w];
            && i < |es| && es[i].ApiStart? && es[i].m == x.id
            && var q := es[i].request;
            && x.pc.to == A.NormalizePhone(q.to)
            && q.template in cfg.worker.templates && x.pc.body == Render(cfg.worker.templates[q.template], q.vars)
  {
    var s := Run(cfg, es);
    RunKeepsContent(cfg, START, [], es);
    assert [] + es == es;
    var x := s.workers[w];
    assert Knows(cfg.worker, s.calls, x);
    i :| 0 <= i < |es| && StartOf(es[i], x.id, s.calls[x.id]);
  }

  /** In every run, every row carries what the request that created it said, its number normalized. */
  lemma RowsCarryTheirRequest(cfg: Config, es: seq<Event>, m: MessageId) returns (i: nat)
    requires m in Run(cfg, es).t.messages
    ensures i < |es| && es[i].ApiStart? && es[i].m == m
    ensures Carries(Run(cfg, es).t.messages[m], es[i].request.(to := A.NormalizePhone(es[i].request.to)))
  {
    var s := Run(cfg, es);
    RunKeepsContent(cfg, START, [], es);
    assert [] + es == es;
    assert Carries(s.t.messages[m], s.calls[m].request);
    i :| 0 <= i < |es| && StartOf(es[i], m, s.calls[m]);
  }
}
