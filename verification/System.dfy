/** The whole service as one step system: any number of API calls, workers,
    provider callbacks and reconciler runs over shared tables and one queue.
    Every statement, queue call or provider call is one step; `Apply` does one
    step, and a run is any sequence of events (an event that cannot happen is
    skipped), so a fact about all event sequences covers every interleaving,
    redelivery, failure and crash. */
module System {
  import opened Boundary
  import opened Tables
  import W = Processor
  import A = Service

  /** A store call may work, fail without effect, or take effect and still report an error. */
  datatype Fault = Works | LostBefore | LostAfter

  datatype Config = Config(worker: W.Config, maxPerDay: int)

  /** What the outside picks for one step. `dropped`: the queue took the job for a duplicate. */
  datatype Choice = Choice(fault: Fault, yes: bool, dropped: bool, now: int, call: W.CallResult)

  datatype ApiCall = ApiCall(request: A.Request, now: int, pc: A.Pc)

  /** A delivery of a job being processed; `claim` numbers its successful claim. */
  datatype Worker = Worker(id: MessageId, pc: W.Pc, claim: nat)

  /** A claim that took effect: the time it carried, and who learned of it. */
  datatype ClaimRecord = ClaimRecord(at: int, holder: Option<nat>)

  /** The history of one message: its claims in order; how often it was sent to
      the provider and how often that was answered 2xx; under which claims and
      attempts it was sent, and under which claims it was answered 2xx; whether
      a delivery was acknowledged; and the three ways things can go wrong:
      `early`, a claim refused because the previous one was not yet stale;
      `overrun`, a claim made while an earlier claimant was still running;
      `lost`, a write after a 2xx that did not happen. */
  datatype Life = Life(
    claims: seq<ClaimRecord>, sends: nat, accepts: nat, sent: set<(nat, nat)>, accepted: set<nat>,
    acked: bool, early: bool, overrun: bool, lost: bool)

  datatype Sys = Sys(
    t: Tables, jobs: multiset<MessageId>, calls: map<MessageId, ApiCall>, workers: map<nat, Worker>,
    lives: map<MessageId, Life>, charged: map<Bucket, set<MessageId>>)

  datatype Event =
    | ApiStart(m: MessageId, request: A.Request, now: int)
    | ApiStep(m: MessageId, choice: Choice)
    | Deliver(w: nat, m: MessageId)
    | WorkStep(w: nat, choice: Choice)
    | Crash(w: nat)
    | ProviderUpdate(provider: string, sid: string, state: State, errorCode: string, now: int)
    | ProviderEvent(event: DeliveryEvent)
    | Reconcile(fixes: map<MessageId, (State, string)>, now: int)

  const NEW_LIFE := Life([], 0, 0, {}, {}, false, false, false, false)
  const START := Sys(EMPTY, multiset{}, map[], map[], map[], map[])

  function Charged(s: Sys, b: Bucket): set<MessageId> {
    if b in s.charged then s.charged[b] else {}
  }

  function BucketOfCall(c: ApiCall): Bucket {
    A.BucketOf(c.request, c.now)
  }

  // ----- one step of an API call

  function ApiTables(cfg: Config, t: Tables, m: MessageId, c: ApiCall, ch: Choice): Tables {
    if ch.fault.LostBefore? then t else
    match c.pc
    case Inserting => (match InsertMessage(t, m, A.NewRow(c.request, c.now)) case None => t case Some(u) => u)
    case Charging => TestAndIncrement(t, BucketOfCall(c), cfg.maxPerDay).0
    case Marking(reason) => MarkMessageState(t, m, A.ReasonState(reason), A.ReasonText(reason), c.now)
    case _ => t
  }

  function ApiAnswer(cfg: Config, t: Tables, m: MessageId, c: ApiCall, ch: Choice): A.Answer {
    match c.pc
    case Finding => A.Answer(ch.fault.Works?, FindByKey(t, c.request.tenant, c.request.key), false)
    case Inserting => A.Answer(ch.fault.Works? && InsertMessage(t, m, A.NewRow(c.request, c.now)).Some?, None, false)
    case Charging => A.Answer(ch.fault.Works?, None, TestAndIncrement(t, BucketOfCall(c), cfg.maxPerDay).1)
    case _ => A.Answer(ch.fault.Works?, None, ch.yes)
  }

  predicate Charges(cfg: Config, s: Sys, c: ApiCall, ch: Choice) {
    c.pc.Charging? && !ch.fault.LostBefore? && TestAndIncrement(s.t, BucketOfCall(c), cfg.maxPerDay).1
  }

  function DoApi(cfg: Config, s: Sys, m: MessageId, ch: Choice): Sys
    requires m in s.calls && !s.calls[m].pc.Done?
  {
    var c := s.calls[m];
    var b := BucketOfCall(c);
    s.(t := ApiTables(cfg, s.t, m, c, ch),
       // Assumed of the queue: an error means that no job was created.
       jobs := if c.pc.Enqueueing? && ch.fault.Works? && !ch.dropped then s.jobs + multiset{m} else s.jobs,
       charged := if Charges(cfg, s, c, ch) then s.charged[b := Charged(s, b) + {m}] else s.charged,
       calls := s.calls[m := c.(pc := A.Next(m, c.pc, ApiAnswer(cfg, s.t, m, c, ch)))])
  }

  // ----- one step of a worker

  function Read(r: Row): W.Message {
    W.Message(r.tenant, r.phone, r.template, r.state, OrEmpty(r.sid), r.vars)
  }

  const NO_MESSAGE := W.Message("", "", "", Queued, "", [])

  function WorkTables(cfg: Config, t: Tables, x: Worker, ch: Choice): Tables {
    if ch.fault.LostBefore? then t else
    match x.pc
    case Claiming(_) => ClaimMessage(t, x.id, ch.now, W.StaleAfter(cfg.worker))
    case NoTemplate => MarkMessageState(t, x.id, Failed, "template_not_found", ch.now)
    case RecordingOk(sid, status) => InsertAttempt(t, Attempt(x.id, NullIfEmpty(sid), status, false))
    case Finishing(sid) => SetProviderDetails(t, x.id, "twilio", sid, Submitted, ch.now)
    case RecordingError(_, _, _, _, status) => InsertAttempt(t, Attempt(x.id, None, status, true))
    case GivingUp(reason) => MarkMessageState(t, x.id, Failed, reason, ch.now)
    case _ => t
  }

  function WorkAnswer(cfg: Config, t: Tables, x: Worker, ch: Choice): W.Answer {
    match x.pc
    case Reading => if x.id in t.messages then W.Answer(ch.fault.Works?, Read(t.messages[x.id]), false, ch.call)
                    else W.Answer(false, NO_MESSAGE, false, ch.call)
    case Claiming(_) => W.Answer(ch.fault.Works?, NO_MESSAGE, Claims(t, x.id, ch.now, W.StaleAfter(cfg.worker)), ch.call)
    case Limiting(_, _, _) => W.Answer(ch.yes, NO_MESSAGE, false, ch.call)
    case _ => W.Answer(ch.fault.Works?, NO_MESSAGE, false, ch.call)
  }

  /** Between a successful claim and the end of the run. */
  predicate Holding(pc: W.Pc) {
    !pc.Reading? && !pc.Claiming? && !pc.Done?
  }

  predicate Held(s: Sys, m: MessageId) {
    exists w <- s.workers :: s.workers[w].id == m && Holding(s.workers[w].pc)
  }

  predicate Accepting(pc: W.Pc) {
    pc.RecordingOk? || pc.Finishing?
  }

  /** The claim statement takes effect, whether or not the worker learns of it. */
  predicate Takes(cfg: Config, t: Tables, x: Worker, ch: Choice) {
    x.pc.Claiming? && !ch.fault.LostBefore? && Claims(t, x.id, ch.now, W.StaleAfter(cfg.worker))
  }

  /** The claim is refused because the current claim is not yet stale. */
  predicate Refused(cfg: Config, t: Tables, x: Worker, ch: Choice) {
    x.pc.Claiming? && ch.fault.Works? && x.id in t.messages && t.messages[x.id].state.Processing?
    && ch.now - W.StaleAfter(cfg.worker) <= t.messages[x.id].updatedAt
  }

  function NextPc(cfg: Config, t: Tables, x: Worker, ch: Choice): W.Pc
    requires !x.pc.Done?
  {
    W.Next(cfg.worker, x.pc, WorkAnswer(cfg, t, x, ch))
  }

  function NextLife(cfg: Config, s: Sys, w: nat, ch: Choice): Life
    requires w in s.workers && !s.workers[w].pc.Done? && s.workers[w].id in s.lives
  {
    var x := s.workers[w];
    var l := s.lives[x.id];
    var sends, accepts := x.pc.Calling? && !ch.call.BreakerOpen?, x.pc.Calling? && ch.call.Accepted?;
    Life(
      if Takes(cfg, s.t, x, ch) then l.claims + [ClaimRecord(ch.now, if ch.fault.Works? then Some(w) else None)] else l.claims,
      if sends then l.sends + 1 else l.sends,
      if accepts then l.accepts + 1 else l.accepts,
      if sends then l.sent + {(x.claim, x.pc.attempt)} else l.sent,
      if accepts then l.accepted + {x.claim} else l.accepted,
      l.acked || NextPc(cfg, s.t, x, ch) == W.Done(true),
      l.early || Refused(cfg, s.t, x, ch),
      l.overrun || (Takes(cfg, s.t, x, ch) && Held(s, x.id)),
      l.lost || (x.pc.RecordingOk? && !ch.fault.Works?) || (x.pc.Finishing? && ch.fault.LostBefore?))
  }

  function DoWork(cfg: Config, s: Sys, w: nat, ch: Choice): Sys
    requires w in s.workers && !s.workers[w].pc.Done? && s.workers[w].id in s.lives
  {
    var x := s.workers[w];
    var n := if x.pc.Claiming? then |s.lives[x.id].claims| else x.claim;
    s.(t := WorkTables(cfg, s.t, x, ch),
       workers := s.workers[w := Worker(x.id, NextPc(cfg, s.t, x, ch), n)],
       lives := s.lives[x.id := NextLife(cfg, s, w, ch)])
  }

  function DoCrash(s: Sys, w: nat): Sys
    requires w in s.workers && s.workers[w].id in s.lives
  {
    var x := s.workers[w];
    var l := s.lives[x.id];
    s.(workers := s.workers[w := x.(pc := W.Done(false))],
       lives := s.lives[x.id := l.(lost := l.lost || Accepting(x.pc))])
  }

  // ----- one event

  predicate Terminal(state: State) {
    state.Delivered? || state.Failed?
  }

  function DoReconcile(t: Tables, fixes: map<MessageId, (State, string)>, now: int): Tables {
    t.(messages := map id | id in t.messages ::
        if id in fixes && t.messages[id].state.Submitted? && Terminal(fixes[id].0)
        then Restated(t.messages[id], fixes[id].0, fixes[id].1, now) else t.messages[id])
  }

  function Apply(cfg: Config, s: Sys, e: Event): Sys {
    match e
    case ApiStart(m, request, now) =>
      if m in s.calls then s
      else s.(calls := s.calls[m := ApiCall(A.Normalized(request), now, A.Finding)], lives := s.lives[m := NEW_LIFE])
    case ApiStep(m, ch) => if m in s.calls && !s.calls[m].pc.Done? then DoApi(cfg, s, m, ch) else s
    case Deliver(w, m) =>
      // At least once: a job can be delivered again at any time, even after it was acknowledged.
      if w in s.workers || m !in s.jobs then s else s.(workers := s.workers[w := Worker(m, W.Reading, 0)])
    case WorkStep(w, ch) =>
      if w in s.workers && !s.workers[w].pc.Done? && s.workers[w].id in s.lives then DoWork(cfg, s, w, ch) else s
    case Crash(w) => if w in s.workers && !s.workers[w].pc.Done? && s.workers[w].id in s.lives then DoCrash(s, w) else s
    case ProviderUpdate(provider, sid, state, errorCode, now) =>
      if Terminal(state) then s.(t := UpdateByProviderMsgID(s.t, provider, sid, state, errorCode, now)) else s
    case ProviderEvent(event) => s.(t := InsertDeliveryEvent(s.t, event))
    case Reconcile(fixes, now) => s.(t := DoReconcile(s.t, fixes, now))
  }

  function RunFrom(cfg: Config, s: Sys, es: seq<Event>): Sys
    decreases |es|
  {
    if es == [] then s else RunFrom(cfg, Apply(cfg, s, es[0]), es[1..])
  }

  /** The state after a run from the empty system. */
  function Run(cfg: Config, es: seq<Event>): Sys {
    RunFrom(cfg, START, es)
  }
}
