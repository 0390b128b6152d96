/** The invariant of the whole system and the proof that every event keeps it. */
module Invariant {
  import opened Boundary
  import opened Tables
  import W = Processor
  import A = Service
  import opened System

  // ----- what holds of one API call, one message's life, one worker

  predicate BeforeInsert(pc: A.Pc) {
    pc.Finding? || pc.Inserting?
  }

  predicate BeforeCharge(pc: A.Pc) {
    BeforeInsert(pc) || pc.AskingSuppression? || pc.AskingConsent? || pc.Charging?
  }

  predicate PastCharge(pc: A.Pc) {
    pc.Enqueueing? || pc == A.Marking(A.EnqueueFailed) || (pc.Done? && pc.reply.Created?)
  }

  predicate Rejects(pc: A.Pc) {
    pc.Marking? || (pc.Done? && pc.reply.Rejected?)
  }

  /** The call certainly created its row. */
  predicate Inserted(pc: A.Pc) {
    (!BeforeInsert(pc) && !pc.Done?) || (pc.Done? && (pc.reply.Created? || pc.reply.Rejected?))
  }

  predicate Represents(r: Row, c: ApiCall) {
    r.tenant == c.request.tenant && r.key == c.request.key && r.phone == c.request.to && r.createdAt == c.now
  }

  predicate Fresh(state: State) {
    state.Queued? || state.Processing?
  }

  ghost predicate CallOk(s: Sys, m: MessageId)
    requires m in s.calls && m in s.lives
  {
    var c, l := s.calls[m], s.lives[m];
    && (m in s.t.messages ==> Represents(s.t.messages[m], c))
    && (BeforeInsert(c.pc) ==> m !in s.t.messages)
    && (Inserted(c.pc) ==> m in s.t.messages)
    && (BeforeCharge(c.pc) ==> m !in Charged(s, BucketOfCall(c)))
    && (PastCharge(c.pc) ==> m in Charged(s, BucketOfCall(c)))
    && (m in Charged(s, BucketOfCall(c)) ==> m in s.t.messages)
    && s.jobs[m] <= 1
    && (s.jobs[m] == 1 ==> c.pc == A.Done(A.Created(m)))
    && (s.jobs[m] == 0 ==> l == NEW_LIFE
                           && (m in s.t.messages ==> s.t.messages[m].provider == None && !s.t.messages[m].state.Processing? && !s.t.messages[m].state.Submitted?))
    && (m in s.t.messages && !c.pc.Done? ==> s.t.messages[m].state.Queued?)
  }

  ghost predicate ReplyOk(s: Sys, m: MessageId)
    requires m in s.calls
  {
    var c := s.calls[m];
    c.pc.Done? ==>
      match c.pc.reply
      case Error => true
      case Created(id) => id == m
      case Rejected(id) => id == m
      case Existing(id, _) => id in s.t.messages
                              && s.t.messages[id].tenant == c.request.tenant && s.t.messages[id].key == c.request.key
  }

  ghost predicate Spaced(claims: seq<ClaimRecord>, staleAfter: int) {
    forall i | 0 < i < |claims| :: claims[i - 1].at + staleAfter < claims[i].at
  }

  /** Every send was made under a claim and attempt of its own, every 2xx under a claim of its own. */
  ghost predicate CountsOk(l: Life) {
    l.sends == |l.sent| && l.accepts == |l.accepted|
  }

  ghost predicate LifeOk(cfg: Config, s: Sys, m: MessageId)
    requires m in s.lives
  {
    var l := s.lives[m];
    && Spaced(l.claims, W.StaleAfter(cfg.worker))
    && (forall j <- l.accepted :: j < |l.claims|)
    && (forall p <- l.sent :: p.0 < |l.claims| && p.1 < 3)
    && CountsOk(l)
    && (m in s.t.messages ==>
          var r := s.t.messages[m];
          && (r.state.Queued? ==> l.claims == [] && !l.acked)
          && (r.state.Processing? ==> l.claims != [] && r.updatedAt == l.claims[|l.claims| - 1].at && (l.acked ==> l.early))
          && (Fresh(r.state) ==> r.provider == None && r.sid == None))
  }

  /** Unless a claim overran or a write was lost: only the last claim was ever accepted,
      and while the row still says `processing`, its claimant is about to write that down. */
  ghost predicate OnceOk(s: Sys, m: MessageId)
    requires m in s.lives
  {
    var l := s.lives[m];
    !l.overrun && !l.lost ==>
      && (forall j <- l.accepted :: j == |l.claims| - 1)
      && (l.accepted != {} && m in s.t.messages && s.t.messages[m].state.Processing? ==>
            && l.claims != [] && l.claims[|l.claims| - 1].holder.Some?
            && var w := l.claims[|l.claims| - 1].holder.value;
            w in s.workers && s.workers[w].id == m && Accepting(s.workers[w].pc))
  }

  ghost predicate AttemptOk(x: Worker, l: Life) {
    match x.pc
    case Limiting(n, _, _) => n < 3 && x.claim !in l.accepted && (forall p <- l.sent :: p.0 == x.claim ==> p.1 < n)
    case Calling(n, _, _) => n < 3 && x.claim !in l.accepted && (forall p <- l.sent :: p.0 == x.claim ==> p.1 < n)
    case RecordingError(n, _, _, _, _) => n < 3 && x.claim !in l.accepted && (forall p <- l.sent :: p.0 == x.claim ==> p.1 <= n)
    case Napping(n, _, _, _) => n < 3 && x.claim !in l.accepted && (forall p <- l.sent :: p.0 == x.claim ==> p.1 <= n)
    case RecordingOk(_, _) => x.claim in l.accepted
    case Finishing(_) => x.claim in l.accepted
    case _ => true
  }

  ghost predicate WorkerOk(s: Sys, w: nat)
    requires w in s.workers
  {
    var x := s.workers[w];
    && x.id in s.calls && x.id in s.lives && s.jobs[x.id] == 1 && x.id in s.t.messages
    && (Holding(x.pc) ==>
          var l := s.lives[x.id];
          && x.claim < |l.claims| && l.claims[x.claim].holder == Some(w)
          && AttemptOk(x, l)
          && (!l.overrun ==> x.claim == |l.claims| - 1 && s.t.messages[x.id].state.Processing?))
  }

  ghost predicate CapsOk(cfg: Config, s: Sys) {
    && (forall b: Bucket :: CapCount(s.t, b) == |Charged(s, b)| <= Max0(cfg.maxPerDay))
    && (forall b <- s.charged, m <- s.charged[b] :: m in s.calls && BucketOfCall(s.calls[m]) == b)
  }

  ghost predicate Shape(s: Sys) {
    && Indexed(s.t)
    && s.calls.Keys == s.lives.Keys
    && s.t.messages.Keys <= s.calls.Keys
    && (forall m <- s.jobs :: m in s.calls)
  }

  ghost predicate MessageOk(cfg: Config, s: Sys, m: MessageId) {
    m in s.calls && m in s.lives && CallOk(s, m) && ReplyOk(s, m) && LifeOk(cfg, s, m) && OnceOk(s, m)
  }

  ghost predicate Inv(cfg: Config, s: Sys) {
    && Shape(s)
    && CapsOk(cfg, s)
    && (forall m <- s.calls :: MessageOk(cfg, s, m))
    && (forall w <- s.workers :: WorkerOk(s, w))
  }

  // ----- frames: what a step leaves alone

  /** Nothing about message `m` has changed. */
  ghost predicate Same(s: Sys, u: Sys, m: MessageId) {
    && m in s.calls && m in s.lives && m in u.calls && m in u.lives
    && u.calls[m] == s.calls[m] && u.lives[m] == s.lives[m] && u.jobs[m] == s.jobs[m]
    && (m in u.t.messages <==> m in s.t.messages)
    && (m in s.t.messages ==> u.t.messages[m] == s.t.messages[m])
    && (m in Charged(u, BucketOfCall(s.calls[m])) <==> m in Charged(s, BucketOfCall(s.calls[m])))
  }

  /** The workers of message `m` are as they were. */
  ghost predicate SameWorkers(s: Sys, u: Sys, m: MessageId) {
    forall w <- s.workers :: s.workers[w].id == m ==> w in u.workers && u.workers[w] == s.workers[w]
  }

  /** A step that concerns message `m` alone. */
  ghost predicate Concerns(s: Sys, u: Sys, m: MessageId) {
    && Keeps(s.t, u.t)
    && u.calls.Keys <= s.calls.Keys + {m}
    && (forall n <- s.calls :: n != m ==> Same(s, u, n))
    && (forall w <- s.workers :: s.workers[w].id != m ==> w in u.workers && u.workers[w] == s.workers[w])
    && (forall w <- u.workers :: u.workers[w].id != m ==> w in s.workers && u.workers[w] == s.workers[w])
  }

  lemma FrameMessage(cfg: Config, s: Sys, u: Sys, m: MessageId)
    requires MessageOk(cfg, s, m) && Same(s, u, m) && Keeps(s.t, u.t) && SameWorkers(s, u, m)
    ensures MessageOk(cfg, u, m)
  {
  }

  lemma FrameWorker(s: Sys, u: Sys, w: nat)
    requires w in s.workers && WorkerOk(s, w) && w in u.workers && u.workers[w] == s.workers[w]
    requires Same(s, u, s.workers[w].id)
    ensures WorkerOk(u, w)
  {
  }

  lemma Assemble(cfg: Config, s: Sys, u: Sys, m: MessageId)
    requires Inv(cfg, s) && Concerns(s, u, m) && Shape(u) && CapsOk(cfg, u)
    requires m in u.calls ==> MessageOk(cfg, u, m)
    requires forall w <- u.workers :: u.workers[w].id == m ==> WorkerOk(u, w)
    ensures Inv(cfg, u)
  {
    AssembleMessages(cfg, s, u, m);
    AssembleWorkers(s, u, m);
  }

  lemma AssembleMessages(cfg: Config, s: Sys, u: Sys, m: MessageId)
    requires Concerns(s, u, m) && (m in u.calls ==> MessageOk(cfg, u, m))
    requires forall n <- s.calls :: MessageOk(cfg, s, n)
    ensures forall n <- u.calls :: MessageOk(cfg, u, n)
  {
    forall n <- u.calls ensures MessageOk(cfg, u, n) {
      if n != m { FrameMessage(cfg, s, u, n); }
    }
  }

  lemma AssembleWorkers(s: Sys, u: Sys, m: MessageId)
    requires Concerns(s, u, m) && forall w <- s.workers :: WorkerOk(s, w)
    requires forall w <- u.workers :: u.workers[w].id == m ==> WorkerOk(u, w)
    ensures forall w <- u.workers :: WorkerOk(u, w)
  {
    forall w <- u.workers ensures WorkerOk(u, w) {
      if u.workers[w].id != m {
        assert WorkerOk(s, w);
        FrameWorker(s, u, w);
      }
    }
  }

  /** Without a job a message has no worker. */
  lemma NoJobNoWorker(s: Sys, m: MessageId)
    requires forall w <- s.workers :: WorkerOk(s, w)
    requires m !in s.jobs
    ensures forall w <- s.workers :: s.workers[w].id != m
  {
    forall w <- s.workers ensures s.workers[w].id != m {
      assert WorkerOk(s, w);
    }
  }

  // ----- API calls

  function Started(s: Sys, m: MessageId, request: A.Request, now: int): Sys {
    s.(calls := s.calls[m := ApiCall(request, now, A.Finding)], lives := s.lives[m := NEW_LIFE])
  }

  lemma ApiStartKeeps(cfg: Config, s: Sys, m: MessageId, request: A.Request, now: int)
    requires Inv(cfg, s) && m !in s.calls
    ensures Inv(cfg, Started(s, m, request, now))
  {
    var u := Started(s, m, request, now);
    StartedCallOk(cfg, s, m, request, now);
    StartedCaps(cfg, s, m, request, now);
    StartedConcerns(s, m, request, now);
    StartedShape(s, m, request, now);
    NoJobNoWorker(s, m);
    Assemble(cfg, s, u, m);
  }

  lemma StartedCaps(cfg: Config, s: Sys, m: MessageId, request: A.Request, now: int)
    requires CapsOk(cfg, s) && m !in s.calls
    ensures CapsOk(cfg, Started(s, m, request, now))
  {
    var u := Started(s, m, request, now);
    forall b ensures CapCount(u.t, b) == |Charged(u, b)| <= Max0(cfg.maxPerDay) {
      assert CapCount(s.t, b) == |Charged(s, b)| <= Max0(cfg.maxPerDay);
    }
  }

  lemma StartedConcerns(s: Sys, m: MessageId, request: A.Request, now: int)
    requires Shape(s) && m !in s.calls
    ensures Concerns(s, Started(s, m, request, now), m)
  {
    var u := Started(s, m, request, now);
    forall n <- s.calls | n != m ensures Same(s, u, n) {
    }
  }

  lemma StartedShape(s: Sys, m: MessageId, request: A.Request, now: int)
    requires Shape(s)
    ensures Shape(Started(s, m, request, now))
  {
  }

  lemma StartedCallOk(cfg: Config, s: Sys, m: MessageId, request: A.Request, now: int)
    requires Shape(s) && CapsOk(cfg, s) && m !in s.calls
    ensures MessageOk(cfg, Started(s, m, request, now), m)
  {
    assert m !in s.jobs && m !in s.t.messages;
    assert m !in Charged(s, A.BucketOf(request, now));
  }

  lemma ApiTablesKeep(cfg: Config, t: Tables, m: MessageId, c: ApiCall, ch: Choice)
    requires Indexed(t)
    ensures Indexed(ApiTables(cfg, t, m, c, ch))
  {
    var u := ApiTables(cfg, t, m, c, ch);
    if c.pc.Inserting? {
      if !ch.fault.LostBefore? && InsertMessage(t, m, A.NewRow(c.request, c.now)).Some? {
        InsertKeepsIndex(t, m, A.NewRow(c.request, c.now));
      }
    } else {
      UpdateKeepsIndex(t, u);
    }
  }

  lemma ApiCaps(cfg: Config, s: Sys, m: MessageId, ch: Choice)
    requires CapsOk(cfg, s) && m in s.calls && m in s.lives && CallOk(s, m) && !s.calls[m].pc.Done?
    ensures CapsOk(cfg, DoApi(cfg, s, m, ch))
  {
    var c, u := s.calls[m], DoApi(cfg, s, m, ch);
    var b := BucketOfCall(c);
    if Charges(cfg, s, c, ch) {
      assert |Charged(s, b) + {m}| == |Charged(s, b)| + 1;
      assert u.charged == s.charged[b := Charged(s, b) + {m}];
    }
    forall b' ensures CapCount(u.t, b') == |Charged(u, b')| <= Max0(cfg.maxPerDay) {
      assert CapCount(s.t, b') == |Charged(s, b')| <= Max0(cfg.maxPerDay);
    }
  }

  lemma ApiCallOk(cfg: Config, s: Sys, m: MessageId, ch: Choice)
    requires m in s.calls && m in s.lives && CallOk(s, m) && !s.calls[m].pc.Done?
    ensures CallOk(DoApi(cfg, s, m, ch), m)
  {
  }

  lemma ApiReplyOk(cfg: Config, s: Sys, m: MessageId, ch: Choice)
    requires Indexed(s.t) && m in s.calls && m in s.lives && CallOk(s, m) && !s.calls[m].pc.Done?
    ensures ReplyOk(DoApi(cfg, s, m, ch), m)
  {
  }

  lemma ApiLifeOk(cfg: Config, s: Sys, m: MessageId, ch: Choice)
    requires m in s.calls && m in s.lives && CallOk(s, m) && LifeOk(cfg, s, m) && !s.calls[m].pc.Done?
    ensures LifeOk(cfg, DoApi(cfg, s, m, ch), m) && OnceOk(DoApi(cfg, s, m, ch), m)
  {
  }

  lemma ApiTouches(cfg: Config, t: Tables, m: MessageId, c: ApiCall, ch: Choice)
    ensures var u := ApiTables(cfg, t, m, c, ch);
            && Keeps(t, u) && t.messages.Keys <= u.messages.Keys <= t.messages.Keys + {m}
            && (forall n <- t.messages :: n != m ==> u.messages[n] == t.messages[n])
  {
  }

  lemma ApiConcerns(cfg: Config, s: Sys, m: MessageId, ch: Choice)
    requires m in s.calls && !s.calls[m].pc.Done? && s.calls.Keys == s.lives.Keys
    ensures var u := DoApi(cfg, s, m, ch);
            && Concerns(s, u, m)
            && s.t.messages.Keys <= u.t.messages.Keys <= s.t.messages.Keys + {m}
            && (forall n <- u.jobs :: n in s.jobs || n == m)
  {
    ApiTouches(cfg, s.t, m, s.calls[m], ch);
    var u := DoApi(cfg, s, m, ch);
    forall n <- s.calls | n != m ensures Same(s, u, n) {
      assert u.jobs[n] == s.jobs[n];
    }
  }

  lemma ApiMessageOk(cfg: Config, s: Sys, m: MessageId, ch: Choice)
    requires Indexed(s.t) && MessageOk(cfg, s, m) && !s.calls[m].pc.Done?
    ensures MessageOk(cfg, DoApi(cfg, s, m, ch), m)
  {
    ApiCallOk(cfg, s, m, ch);
    ApiReplyOk(cfg, s, m, ch);
    ApiLifeOk(cfg, s, m, ch);
  }

  lemma ApiFrame(cfg: Config, s: Sys, m: MessageId, ch: Choice)
    requires Shape(s) && CapsOk(cfg, s) && m in s.calls && m in s.lives && CallOk(s, m) && !s.calls[m].pc.Done?
    ensures var u := DoApi(cfg, s, m, ch); Concerns(s, u, m) && Shape(u) && CapsOk(cfg, u)
  {
    ApiTablesKeep(cfg, s.t, m, s.calls[m], ch);
    ApiCaps(cfg, s, m, ch);
    ApiConcerns(cfg, s, m, ch);
  }

  /** While its call is running a message has no worker. */
  lemma NoWorkerYet(cfg: Config, s: Sys, m: MessageId)
    requires Inv(cfg, s) && m in s.calls && !s.calls[m].pc.Done?
    ensures forall w <- s.workers :: s.workers[w].id != m
  {
    assert MessageOk(cfg, s, m);
    NoJobNoWorker(s, m);
  }

  lemma ApiStepKeeps(cfg: Config, s: Sys, m: MessageId, ch: Choice)
    requires Inv(cfg, s) && m in s.calls && !s.calls[m].pc.Done?
    ensures Inv(cfg, DoApi(cfg, s, m, ch))
  {
    assert MessageOk(cfg, s, m);
    ApiMessageOk(cfg, s, m, ch);
    ApiFrame(cfg, s, m, ch);
    NoWorkerYet(cfg, s, m);
    Assemble(cfg, s, DoApi(cfg, s, m, ch), m);
  }

  // ----- workers

  /** Worker `w` is still running. */
  predicate Running(s: Sys, w: nat) {
    w in s.workers && !s.workers[w].pc.Done? && s.workers[w].id in s.calls && s.workers[w].id in s.lives
  }

  /** A statement that changes at most the row of message `m`, and not its tenant or key. */
  ghost predicate Touches(t: Tables, u: Tables, m: MessageId) {
    && Keeps(t, u) && u.messages.Keys == t.messages.Keys && u.byKey == t.byKey && u.caps == t.caps
    && (forall n <- t.messages :: n != m ==> u.messages[n] == t.messages[n])
  }

  lemma ClaimTouches(t: Tables, m: MessageId, now: int, staleAfter: int)
    ensures Touches(t, ClaimMessage(t, m, now, staleAfter), m)
  {
  }

  lemma MarkTouches(t: Tables, m: MessageId, state: State, reason: string, now: int)
    ensures Touches(t, MarkMessageState(t, m, state, reason, now), m)
  {
  }

  lemma DetailsTouch(t: Tables, m: MessageId, provider: string, sid: string, state: State, now: int)
    ensures Touches(t, SetProviderDetails(t, m, provider, sid, state, now), m)
  {
  }

  lemma WorkTouches(cfg: Config, t: Tables, x: Worker, ch: Choice)
    ensures Touches(t, WorkTables(cfg, t, x, ch), x.id)
  {
    match x.pc
    case Claiming(_) => ClaimTouches(t, x.id, ch.now, W.StaleAfter(cfg.worker));
    case NoTemplate => MarkTouches(t, x.id, Failed, "template_not_found", ch.now);
    case Finishing(sid) => DetailsTouch(t, x.id, "twilio", sid, Submitted, ch.now);
    case GivingUp(reason) => MarkTouches(t, x.id, Failed, reason, ch.now);
    case _ =>
  }

  lemma WorkConcerns(cfg: Config, s: Sys, w: nat, ch: Choice)
    requires Running(s, w) && Shape(s)
    ensures var u := DoWork(cfg, s, w, ch); Concerns(s, u, s.workers[w].id) && Shape(u)
  {
    var u := DoWork(cfg, s, w, ch);
    WorkTouches(cfg, s.t, s.workers[w], ch);
    UpdateKeepsIndex(s.t, u.t);
    forall n <- s.calls | n != s.workers[w].id ensures Same(s, u, n) {
    }
  }

  /** The caps are nobody's business but the API's. */
  lemma SameCaps(cfg: Config, s: Sys, u: Sys)
    requires CapsOk(cfg, s) && u.t.caps == s.t.caps && u.charged == s.charged && u.calls == s.calls
    ensures CapsOk(cfg, u)
  {
    forall b ensures CapCount(u.t, b) == |Charged(u, b)| <= Max0(cfg.maxPerDay) {
      assert CapCount(s.t, b) == |Charged(s, b)| <= Max0(cfg.maxPerDay);
    }
  }

  lemma WorkCallOk(cfg: Config, s: Sys, w: nat, ch: Choice)
    requires Running(s, w) && WorkerOk(s, w) && CallOk(s, s.workers[w].id) && ReplyOk(s, s.workers[w].id)
    ensures var u := DoWork(cfg, s, w, ch); CallOk(u, s.workers[w].id) && ReplyOk(u, s.workers[w].id)
  {
    WorkTouches(cfg, s.t, s.workers[w], ch);
  }

  /** A claim that takes effect on a row still being processed finds the last claim stale. */
  lemma WorkSpaced(cfg: Config, s: Sys, w: nat, ch: Choice)
    requires Running(s, w) && LifeOk(cfg, s, s.workers[w].id)
    ensures Spaced(NextLife(cfg, s, w, ch).claims, W.StaleAfter(cfg.worker))
  {
  }

  /** The parts of the history that do not depend on the row. */
  lemma WorkHistoryOk(cfg: Config, s: Sys, w: nat, ch: Choice)
    requires Running(s, w) && WorkerOk(s, w) && LifeOk(cfg, s, s.workers[w].id)
    ensures var l := NextLife(cfg, s, w, ch);
            (forall j <- l.accepted :: j < |l.claims|) && (forall p <- l.sent :: p.0 < |l.claims| && p.1 < 3)
  {
  }

  lemma WorkCountsOk(cfg: Config, s: Sys, w: nat, ch: Choice)
    requires Running(s, w) && WorkerOk(s, w) && CountsOk(s.lives[s.workers[w].id])
    ensures CountsOk(NextLife(cfg, s, w, ch))
  {
    var x := s.workers[w];
    if x.pc.Calling? { NewAttempt(x, s.lives[x.id]); }
  }

  lemma NewAttempt(x: Worker, l: Life)
    requires x.pc.Calling? && AttemptOk(x, l)
    ensures |l.sent + {(x.claim, x.pc.attempt)}| == |l.sent| + 1
    ensures |l.accepted + {x.claim}| == |l.accepted| + 1
  {
    assert (x.claim, x.pc.attempt) !in l.sent;
  }

  lemma WorkRowOk(cfg: Config, s: Sys, w: nat, ch: Choice)
    requires Running(s, w) && WorkerOk(s, w) && LifeOk(cfg, s, s.workers[w].id)
    ensures var m, l := s.workers[w].id, NextLife(cfg, s, w, ch);
            var u := DoWork(cfg, s, w, ch);
            && m in u.t.messages
            && var r := u.t.messages[m];
            && (r.state.Queued? ==> l.claims == [] && !l.acked)
            && (r.state.Processing? ==> l.claims != [] && r.updatedAt == l.claims[|l.claims| - 1].at && (l.acked ==> l.early))
            && (Fresh(r.state) ==> r.provider == None && r.sid == None)
  {
  }

  lemma WorkLifeOk(cfg: Config, s: Sys, w: nat, ch: Choice)
    requires Running(s, w) && WorkerOk(s, w) && LifeOk(cfg, s, s.workers[w].id)
    ensures LifeOk(cfg, DoWork(cfg, s, w, ch), s.workers[w].id)
  {
    WorkSpaced(cfg, s, w, ch);
    WorkHistoryOk(cfg, s, w, ch);
    WorkCountsOk(cfg, s, w, ch);
    WorkRowOk(cfg, s, w, ch);
  }

  lemma WorkOnceOk(cfg: Config, s: Sys, w: nat, ch: Choice)
    requires Running(s, w) && WorkerOk(s, w) && LifeOk(cfg, s, s.workers[w].id) && OnceOk(s, s.workers[w].id)
    ensures OnceOk(DoWork(cfg, s, w, ch), s.workers[w].id)
  {
  }

  lemma WorkAttemptOk(cfg: Config, s: Sys, w: nat, ch: Choice)
    requires Running(s, w) && WorkerOk(s, w) && LifeOk(cfg, s, s.workers[w].id)
    ensures AttemptOk(DoWork(cfg, s, w, ch).workers[w], NextLife(cfg, s, w, ch))
  {
    if Holding(s.workers[w].pc) { HolderAttemptOk(cfg, s, w, ch); }
  }

  lemma HolderAttemptOk(cfg: Config, s: Sys, w: nat, ch: Choice)
    requires Running(s, w) && Holding(s.workers[w].pc) && AttemptOk(s.workers[w], s.lives[s.workers[w].id])
    ensures AttemptOk(DoWork(cfg, s, w, ch).workers[w], NextLife(cfg, s, w, ch))
  {
  }

  lemma WorkSelfOk(cfg: Config, s: Sys, w: nat, ch: Choice)
    requires Running(s, w) && WorkerOk(s, w) && LifeOk(cfg, s, s.workers[w].id)
    ensures WorkerOk(DoWork(cfg, s, w, ch), w)
  {
    WorkAttemptOk(cfg, s, w, ch);
    WorkHolds(cfg, s, w, ch);
  }

  lemma WorkHolds(cfg: Config, s: Sys, w: nat, ch: Choice)
    requires Running(s, w) && WorkerOk(s, w)
    ensures var u, m := DoWork(cfg, s, w, ch), s.workers[w].id;
            var x, l := u.workers[w], u.lives[m];
            && m in u.t.messages
            && (Holding(x.pc) ==>
                  && x.claim < |l.claims| && l.claims[x.claim].holder == Some(w)
                  && (!l.overrun ==> x.claim == |l.claims| - 1 && u.t.messages[m].state.Processing?))
  {
  }

  /** What another worker of the message knows of its own claim stays true. */
  lemma WorkOtherAttempt(cfg: Config, s: Sys, w: nat, ch: Choice, v: nat)
    requires Running(s, w) && WorkerOk(s, w) && v in s.workers && v != w && s.workers[v].id == s.workers[w].id
    requires WorkerOk(s, v) && Holding(s.workers[v].pc)
    ensures var x, l := s.workers[v], NextLife(cfg, s, w, ch);
            x.claim < |l.claims| && l.claims[x.claim].holder == Some(v) && AttemptOk(x, l)
  {
  }

  /** Two holders exist, and a second one comes, only through an overrun. */
  lemma WorkOtherHolds(cfg: Config, s: Sys, w: nat, ch: Choice, v: nat)
    requires Running(s, w) && WorkerOk(s, w) && v in s.workers && v != w && s.workers[v].id == s.workers[w].id
    requires WorkerOk(s, v) && Holding(s.workers[v].pc) && !NextLife(cfg, s, w, ch).overrun
    ensures var u, m := DoWork(cfg, s, w, ch), s.workers[w].id;
            m in u.t.messages && s.workers[v].claim == |u.lives[m].claims| - 1 && u.t.messages[m].state.Processing?
  {
    assert !Holding(s.workers[w].pc);
  }

  lemma WorkOtherOk(cfg: Config, s: Sys, w: nat, ch: Choice, v: nat)
    requires Running(s, w) && WorkerOk(s, w) && LifeOk(cfg, s, s.workers[w].id)
    requires v in s.workers && v != w && s.workers[v].id == s.workers[w].id && WorkerOk(s, v)
    ensures WorkerOk(DoWork(cfg, s, w, ch), v)
  {
    WorkTouches(cfg, s.t, s.workers[w], ch);
    if Holding(s.workers[v].pc) {
      WorkOtherAttempt(cfg, s, w, ch, v);
      if !NextLife(cfg, s, w, ch).overrun { WorkOtherHolds(cfg, s, w, ch, v); }
    }
  }

  lemma WorkStepKeeps(cfg: Config, s: Sys, w: nat, ch: Choice)
    requires Inv(cfg, s) && Running(s, w)
    ensures Inv(cfg, DoWork(cfg, s, w, ch))
  {
    var m, u := s.workers[w].id, DoWork(cfg, s, w, ch);
    assert MessageOk(cfg, s, m) && WorkerOk(s, w);
    WorkConcerns(cfg, s, w, ch);
    WorkTouches(cfg, s.t, s.workers[w], ch);
    SameCaps(cfg, s, u);
    WorkCallOk(cfg, s, w, ch);
    WorkLifeOk(cfg, s, w, ch);
    WorkOnceOk(cfg, s, w, ch);
    forall v <- u.workers | u.workers[v].id == m ensures WorkerOk(u, v) {
      if v == w { WorkSelfOk(cfg, s, w, ch); } else { WorkOtherOk(cfg, s, w, ch, v); }
    }
    Assemble(cfg, s, u, m);
  }

  /** A step that changes one worker of `m` and perhaps the history of `m`, and no table. */
  ghost predicate WorkersOnly(s: Sys, u: Sys, w: nat, m: MessageId) {
    && u.t == s.t && u.jobs == s.jobs && u.calls == s.calls && u.charged == s.charged
    && m in s.lives && m in u.lives && u.lives == s.lives[m := u.lives[m]]
    && w in u.workers && u.workers[w].id == m && u.workers == s.workers[w := u.workers[w]]
    && (w in s.workers ==> s.workers[w].id == m)
  }

  lemma WorkersOnlyConcerns(cfg: Config, s: Sys, u: Sys, w: nat, m: MessageId)
    requires Shape(s) && CapsOk(cfg, s) && WorkersOnly(s, u, w, m)
    ensures Concerns(s, u, m) && Shape(u) && CapsOk(cfg, u)
  {
    SameCaps(cfg, s, u);
    forall n <- s.calls | n != m ensures Same(s, u, n) {
    }
  }

  lemma WorkersOnlyKeeps(cfg: Config, s: Sys, u: Sys, w: nat, m: MessageId)
    requires Inv(cfg, s) && WorkersOnly(s, u, w, m)
    requires MessageOk(cfg, u, m) && WorkerOk(u, w)
    requires u.lives[m] == s.lives[m].(lost := u.lives[m].lost)
    ensures Inv(cfg, u)
  {
    WorkersOnlyConcerns(cfg, s, u, w, m);
    forall v <- u.workers | u.workers[v].id == m ensures WorkerOk(u, v) {
      if v != w { assert WorkerOk(s, v); }
    }
    Assemble(cfg, s, u, m);
  }

  lemma DeliverKeeps(cfg: Config, s: Sys, w: nat, m: MessageId)
    requires Inv(cfg, s) && w !in s.workers && m in s.jobs
    ensures Inv(cfg, s.(workers := s.workers[w := Worker(m, W.Reading, 0)]))
  {
    var u := s.(workers := s.workers[w := Worker(m, W.Reading, 0)]);
    assert MessageOk(cfg, s, m);
    DeliverMessageOk(cfg, s, w, m);
    WorkersOnlyKeeps(cfg, s, u, w, m);
  }

  lemma DeliverMessageOk(cfg: Config, s: Sys, w: nat, m: MessageId)
    requires w !in s.workers && m in s.jobs && MessageOk(cfg, s, m)
    ensures var u := s.(workers := s.workers[w := Worker(m, W.Reading, 0)]);
            WorkersOnly(s, u, w, m) && MessageOk(cfg, u, m) && WorkerOk(u, w)
  {
    var u := s.(workers := s.workers[w := Worker(m, W.Reading, 0)]);
    assert u.lives == s.lives[m := u.lives[m]];
  }

  lemma CrashKeeps(cfg: Config, s: Sys, w: nat)
    requires Inv(cfg, s) && Running(s, w)
    ensures Inv(cfg, DoCrash(s, w))
  {
    var m, u := s.workers[w].id, DoCrash(s, w);
    assert MessageOk(cfg, s, m) && WorkerOk(s, w);
    CrashMessageOk(cfg, s, w);
    WorkersOnlyKeeps(cfg, s, u, w, m);
  }

  lemma CrashMessageOk(cfg: Config, s: Sys, w: nat)
    requires Running(s, w) && WorkerOk(s, w) && MessageOk(cfg, s, s.workers[w].id)
    ensures MessageOk(cfg, DoCrash(s, w), s.workers[w].id)
  {
  }

  // ----- provider callbacks and the reconciler

  /** A statement that only moves rows past `processing` to a terminal state. */
  ghost predicate Settles(t: Tables, u: Tables) {
    && u.messages.Keys == t.messages.Keys && u.byKey == t.byKey && u.caps == t.caps
    && forall m <- t.messages ::
         var r, r' := t.messages[m], u.messages[m];
         r' == r || (&& !Fresh(r.state) && (r.provider != None || r.state.Submitted?) && Terminal(r'.state)
                     && r' == r.(state := r'.state, lastError := r'.lastError, updatedAt := r'.updatedAt))
  }

  lemma SettledCallOk(s: Sys, t: Tables, m: MessageId)
    requires m in s.calls && m in s.lives && CallOk(s, m) && ReplyOk(s, m) && Settles(s.t, t) && Keeps(s.t, t)
    ensures CallOk(s.(t := t), m) && ReplyOk(s.(t := t), m)
  {
  }

  lemma SettledLifeOk(cfg: Config, s: Sys, t: Tables, m: MessageId)
    requires m in s.lives && LifeOk(cfg, s, m) && OnceOk(s, m) && Settles(s.t, t)
    ensures LifeOk(cfg, s.(t := t), m) && OnceOk(s.(t := t), m)
  {
  }

  lemma SettledMessageOk(cfg: Config, s: Sys, t: Tables, m: MessageId)
    requires MessageOk(cfg, s, m) && Settles(s.t, t) && Keeps(s.t, t)
    ensures MessageOk(cfg, s.(t := t), m)
  {
    SettledCallOk(s, t, m);
    SettledLifeOk(cfg, s, t, m);
  }

  lemma SettleKeeps(cfg: Config, s: Sys, t: Tables)
    requires Inv(cfg, s) && Settles(s.t, t)
    ensures Inv(cfg, s.(t := t))
  {
    var u := s.(t := t);
    assert Keeps(s.t, t);
    UpdateKeepsIndex(s.t, t);
    SameCaps(cfg, s, u);
    forall m <- u.calls ensures MessageOk(cfg, u, m) {
      assert MessageOk(cfg, s, m);
      SettledMessageOk(cfg, s, t, m);
    }
    forall w <- u.workers ensures WorkerOk(u, w) {
      assert WorkerOk(s, w);
      SettledWorkerOk(s, t, w);
    }
  }

  lemma SettledWorkerOk(s: Sys, t: Tables, w: nat)
    requires w in s.workers && WorkerOk(s, w) && Settles(s.t, t)
    ensures WorkerOk(s.(t := t), w)
  {
  }

  lemma UpdateSettles(cfg: Config, s: Sys, provider: string, sid: string, state: State, errorCode: string, now: int)
    requires Inv(cfg, s) && Terminal(state)
    ensures Settles(s.t, UpdateByProviderMsgID(s.t, provider, sid, state, errorCode, now))
  {
    forall m <- s.t.messages | s.t.messages[m].provider != None ensures !Fresh(s.t.messages[m].state) {
      assert MessageOk(cfg, s, m);
    }
  }

  lemma ReconcileSettles(t: Tables, fixes: map<MessageId, (State, string)>, now: int)
    ensures Settles(t, DoReconcile(t, fixes, now))
  {
  }

  // ----- every event, every run

  lemma ApiEventKeeps(cfg: Config, s: Sys, e: Event)
    requires Inv(cfg, s) && (e.ApiStart? || e.ApiStep?)
    ensures Inv(cfg, Apply(cfg, s, e))
  {
    match e
    case ApiStart(m, request, now) => if m !in s.calls { ApiStartKeeps(cfg, s, m, A.Normalized(request), now); }
    case ApiStep(m, ch) => if m in s.calls && !s.calls[m].pc.Done? { ApiStepKeeps(cfg, s, m, ch); }
  }

  /** What a worker event amounts to: nothing, a new worker, a step or a crash. */
  lemma WorkEventCases(cfg: Config, s: Sys, e: Event)
    requires s.calls.Keys == s.lives.Keys && (e.Deliver? || e.WorkStep? || e.Crash?)
    ensures e.Deliver? && e.w !in s.workers && e.m in s.jobs ==>
              Apply(cfg, s, e) == s.(workers := s.workers[e.w := Worker(e.m, W.Reading, 0)])
    ensures e.Deliver? && !(e.w !in s.workers && e.m in s.jobs) ==> Apply(cfg, s, e) == s
    ensures !e.Deliver? && !Running(s, e.w) ==> Apply(cfg, s, e) == s
    ensures e.WorkStep? && Running(s, e.w) ==> Apply(cfg, s, e) == DoWork(cfg, s, e.w, e.choice)
    ensures e.Crash? && Running(s, e.w) ==> Apply(cfg, s, e) == DoCrash(s, e.w)
  {
  }

  lemma SameKeys(cfg: Config, s: Sys)
    requires Inv(cfg, s)
    ensures s.calls.Keys == s.lives.Keys
  {
  }

  lemma WorkEventKeeps(cfg: Config, s: Sys, e: Event)
    requires Inv(cfg, s) && (e.Deliver? || e.WorkStep? || e.Crash?)
    ensures Inv(cfg, Apply(cfg, s, e))
  {
    SameKeys(cfg, s);
    WorkEventCases(cfg, s, e);
    if e.Deliver? {
      if e.w !in s.workers && e.m in s.jobs { DeliverKeeps(cfg, s, e.w, e.m); }
    } else if Running(s, e.w) {
      if e.WorkStep? { WorkStepKeeps(cfg, s, e.w, e.choice); } else { CrashKeeps(cfg, s, e.w); }
    }
  }

  lemma OutsideEventSettles(cfg: Config, s: Sys, e: Event)
    requires Inv(cfg, s) && (e.ProviderUpdate? || e.ProviderEvent? || e.Reconcile?)
    ensures var u := Apply(cfg, s, e); u == s.(t := u.t) && Settles(s.t, u.t)
  {
    if e.ProviderUpdate? {
      if Terminal(e.state) { UpdateSettles(cfg, s, e.provider, e.sid, e.state, e.errorCode, e.now); }
    } else if e.Reconcile? {
      ReconcileSettles(s.t, e.fixes, e.now);
    }
  }

  lemma EventKeeps(cfg: Config, s: Sys, e: Event)
    requires Inv(cfg, s)
    ensures Inv(cfg, Apply(cfg, s, e))
  {
    if e.ApiStart? || e.ApiStep? {
      ApiEventKeeps(cfg, s, e);
    } else if e.Deliver? || e.WorkStep? || e.Crash? {
      WorkEventKeeps(cfg, s, e);
    } else {
      OutsideEventSettles(cfg, s, e);
      SettleKeeps(cfg, s, Apply(cfg, s, e).t);
    }
  }

  lemma {:induction false} RunKeeps(cfg: Config, s: Sys, es: seq<Event>)
    requires Inv(cfg, s)
    ensures Inv(cfg, RunFrom(cfg, s, es))
    decreases |es|
  {
    if es != [] {
      EventKeeps(cfg, s, es[0]);
      RunKeeps(cfg, Apply(cfg, s, es[0]), es[1..]);
    }
  }

  /** The invariant holds after every run. */
  lemma EveryRun(cfg: Config, es: seq<Event>)
    ensures Inv(cfg, Run(cfg, es))
  {
    RunKeeps(cfg, START, es);
  }
}
