/** Provider callbacks: the HTTP handler in direct and in queue mode, and the processor behind the queue. */
module Webhook {
  import opened Boundary
  import opened Tables
  import R = Reconciler
  import Signature
  import System

  /** The parts of a callback that matter; `payload` is the whole form. */
  datatype Callback = Callback(provider: string, sid: string, status: string, errorCode: string, payload: string)

  datatype Handler = Handler(useQueue: bool, hasQueue: bool, hasStore: bool)

  datatype Question =
    | InsertEvent(event: DeliveryEvent)   // `receivedAt` is the database's to fill in
    | UpdateMessage(provider: string, sid: string, state: State, lastError: string)
    | Wait(ms: int)
    | EnqueueCallback(provider: string, sid: string, status: string, errorCode: string)   // without the payload

  /** `ok` is "no error"; `timeout` tells a deadline from other errors; `updated` is the update's verdict. */
  datatype Answer = Answer(ok: bool, timeout: bool, updated: bool)

  datatype Pc =
    | Enqueueing
    | Inserting
    | Updating(attempt: nat)
    | Waiting(attempt: nat)
    | Applying            // queue processor: update first
    | Recording           // queue processor: then store the event
    | Done(code: int)     // an HTTP status; for the queue processor, 200 is nil and 500 an error

  predicate IsTerminal(c: Callback) {
    R.TerminalStatus(c.status)
  }

  function Stored(c: Callback, payload: Option<string>): DeliveryEvent {
    DeliveryEvent(c.provider, c.sid, c.status, NullIfEmpty(c.errorCode), payload, 0)
  }

  function QuestionOf(c: Callback, pc: Pc): Question
    requires !pc.Done?
  {
    match pc
    case Enqueueing => EnqueueCallback(c.provider, c.sid, c.status, c.errorCode)
    case Inserting => InsertEvent(Stored(c, Some(c.payload)))
    case Updating(_) => UpdateMessage(c.provider, c.sid, R.StateOf(c.status), c.errorCode)
    case Waiting(n) => Wait(25 * (n + 1))
    case Applying => UpdateMessage(c.provider, c.sid, R.StateOf(c.status), c.errorCode)
    case Recording => InsertEvent(Stored(c, None))
  }

  function Next(c: Callback, pc: Pc, a: Answer): Pc
    requires !pc.Done?
  {
    match pc
    case Enqueueing => Done(if a.ok then 200 else 503)
    case Inserting => if !a.ok then Done(if a.timeout then 503 else 500) else if IsTerminal(c) then Updating(0) else Done(200)
    case Updating(n) => if !a.ok then Done(if a.timeout then 503 else 500) else if a.updated then Done(200) else Waiting(n)
    case Waiting(n) => if !a.ok || n + 1 >= 10 then Done(503) else Updating(n + 1)
    case Applying => if a.ok && a.updated then Recording else Done(500)
    case Recording => Done(if a.ok then 200 else 500)
  }

  ghost function After(c: Callback, start: Pc, reply: nat -> Answer, n: nat): Pc {
    if n == 0 then start
    else if After(c, start, reply, n - 1).Done? then After(c, start, reply, n - 1)
    else Next(c, After(c, start, reply, n - 1), reply(n - 1))
  }

  ghost function Trace(c: Callback, start: Pc, reply: nat -> Answer, n: nat): seq<Question> {
    if n == 0 then []
    else if After(c, start, reply, n - 1).Done? then Trace(c, start, reply, n - 1)
    else Trace(c, start, reply, n - 1) + [QuestionOf(c, After(c, start, reply, n - 1))]
  }

  ghost predicate At(c: Callback, start: Pc, o: Outside<Question, Answer>, pc: Pc)
    reads o
  {
    o.asked == Trace(c, start, o.reply, |o.asked|) && After(c, start, o.reply, |o.asked|) == pc
  }

  method Call(c: Callback, ghost start: Pc, o: Outside<Question, Answer>, ghost pc: Pc, q: Question) returns (a: Answer)
    requires !pc.Done? && At(c, start, o, pc) && q == QuestionOf(c, pc)
    modifies o
    ensures At(c, start, o, Next(c, pc, a))
  {
    a := o.Ask(q);
  }

  function StartOf(h: Handler): Pc {
    if h.useQueue then (if h.hasQueue then Enqueueing else Done(500))
    else if h.hasStore then Inserting else Done(500)
  }

  /** The callback a form stands for; `payload` is the form as it is stored. */
  function FromTwilio(form: Signature.Form, payload: string): Callback {
    Callback("twilio", Signature.Get(form, "MessageSid"), Signature.Get(form, "MessageStatus"), Signature.Get(form, "ErrorCode"), payload)
  }

  method HandleTwilioStatus(h: Handler, formOk: bool, signatureOk: bool, form: Signature.Form, payload: string, o: Outside<Question, Answer>)
    returns (code: int)
    requires o.asked == []
    modifies o
    ensures !formOk ==> code == 400 && o.asked == []
    ensures formOk && !signatureOk ==> code == 401 && o.asked == []
    ensures formOk && signatureOk ==> At(FromTwilio(form, payload), StartOf(h), o, Done(code))
  {
    var c := FromTwilio(form, payload);
    if !formOk { return 400; }
    if !signatureOk { return 401; }
    ghost var start := StartOf(h);
    if h.useQueue {
      if !h.hasQueue { return 500; }
      var a := Call(c, Enqueueing, o, Enqueueing, EnqueueCallback(c.provider, c.sid, c.status, c.errorCode));
      return if a.ok then 200 else 503;
    }
    if !h.hasStore { return 500; }
    var a := Call(c, Inserting, o, Inserting, InsertEvent(Stored(c, Some(c.payload))));
    if !a.ok { return if a.timeout then 503 else 500; }
    if !IsTerminal(c) { return 200; }
    code := UpdateWithRetries(c, o);
  }

  /** Up to ten updates, waiting a little longer after each that finds no row. */
  method UpdateWithRetries(c: Callback, o: Outside<Question, Answer>) returns (code: int)
    requires At(c, Inserting, o, Updating(0))
    modifies o
    ensures At(c, Inserting, o, Done(code))
  {
    var newState := if c.status == "delivered" then Delivered else Failed;
    var attempt := 0;
    while attempt < 10
      invariant 0 <= attempt <= 10
      invariant At(c, Inserting, o, if attempt < 10 then Updating(attempt) else Done(503))
    {
      var a := Call(c, Inserting, o, Updating(attempt), UpdateMessage(c.provider, c.sid, newState, c.errorCode));
      if !a.ok { return if a.timeout then 503 else 500; }
      if a.updated { return 200; }
      a := Call(c, Inserting, o, Waiting(attempt), Wait(25 * (attempt + 1)));
      if !a.ok { return 503; }
      attempt := attempt + 1;
    }
    return 503;
  }

  function QueuedStart(c: Callback): Pc {
    if IsTerminal(c) then Applying else Recording
  }

  method ProcessWebhookEvent(c: Callback, o: Outside<Question, Answer>) returns (ok: bool)
    requires o.asked == []
    modifies o
    ensures At(c, QueuedStart(c), o, Done(if ok then 200 else 500))
  {
    ghost var start := QueuedStart(c);
    if IsTerminal(c) {
      var a := Call(c, start, o, Applying, UpdateMessage(c.provider, c.sid, if c.status == "delivered" then Delivered else Failed, c.errorCode));
      if !a.ok { return false; }
      if !a.updated { return false; }
    }
    var b := Call(c, start, o, Recording, InsertEvent(Stored(c, None)));
    return b.ok;
  }

  // ----- what a success means, whatever else happens to the tables meanwhile

  function Received(e: DeliveryEvent, at: int): DeliveryEvent {
    e.(receivedAt := at)
  }

  /** The store served question `q`, asked when the tables were `t`, leaving them as `u`. */
  ghost predicate Served(q: Question, a: Answer, t: Tables, u: Tables) {
    match q
    case InsertEvent(e) => a.ok ==> exists at :: u == InsertDeliveryEvent(t, Received(e, at))
    case UpdateMessage(provider, sid, state, lastError) =>
      a.ok ==> a.updated == AnyMatch(t, provider, sid) && exists now :: u == UpdateByProviderMsgID(t, provider, sid, state, lastError, now)
    case _ => true
  }

  ghost predicate AllServed(asked: seq<Question>, reply: nat -> Answer, before: nat -> Tables, after: nat -> Tables) {
    forall i: nat | i < |asked| :: Served(asked[i], reply(i), before(i), after(i))
  }

  /** The callback, under some time of the database, is among the events. */
  ghost predicate EventIn(u: Tables, c: Callback, payload: Option<string>) {
    exists e <- u.events ::
      && e.provider == c.provider && e.sid == c.sid && e.status == c.status && e.payload == payload
      && e.errorCode == (if c.errorCode == "" then None else Some(c.errorCode))
  }

  /** Some row of the callback's provider message has this state and the callback's error. */
  ghost predicate RowTook(u: Tables, c: Callback, state: State) {
    exists id <- u.messages ::
      && u.messages[id].provider == Some(c.provider) && u.messages[id].sid == Some(c.sid) && u.messages[id].state == state
      && u.messages[id].lastError == (if c.errorCode == "" then None else Some(c.errorCode))
  }

  lemma ServedInsert(c: Callback, payload: Option<string>, a: Answer, t: Tables, u: Tables)
    requires Served(InsertEvent(Stored(c, payload)), a, t, u) && a.ok
    ensures EventIn(u, c, payload) && exists at :: Received(Stored(c, payload), at) in u.events
  {
    var at :| u == InsertDeliveryEvent(t, Received(Stored(c, payload), at));
    assert Received(Stored(c, payload), at) in u.events;
  }

  lemma ServedUpdate(c: Callback, a: Answer, t: Tables, u: Tables)
    requires Served(UpdateMessage(c.provider, c.sid, R.StateOf(c.status), c.errorCode), a, t, u) && a.ok && a.updated
    ensures RowTook(u, c, R.StateOf(c.status))
  {
    var now :| u == UpdateByProviderMsgID(t, c.provider, c.sid, R.StateOf(c.status), c.errorCode, now);
    UpdatedRowTakesState(t, c.provider, c.sid, R.StateOf(c.status), c.errorCode, now);
  }

  lemma {:induction false} TraceAt(c: Callback, start: Pc, reply: nat -> Answer, n: nat, i: nat)
    requires i < |Trace(c, start, reply, n)|
    ensures |Trace(c, start, reply, n)| <= n && i < n
    ensures !After(c, start, reply, i).Done? && Trace(c, start, reply, n)[i] == QuestionOf(c, After(c, start, reply, i))
    ensures |Trace(c, start, reply, n)| == n || After(c, start, reply, n).Done?
  {
    if After(c, start, reply, n - 1).Done? {
      TraceAt(c, start, reply, n - 1, i);
    } else {
      TraceLength(c, start, reply, n - 1);
      if i < n - 1 { TraceAt(c, start, reply, n - 1, i); }
    }
  }

  lemma {:induction false} TraceLength(c: Callback, start: Pc, reply: nat -> Answer, n: nat)
    ensures |Trace(c, start, reply, n)| <= n
    ensures !After(c, start, reply, n).Done? ==> |Trace(c, start, reply, n)| == n
  {
    if n > 0 { TraceLength(c, start, reply, n - 1); }
  }

  /** The step `j` that ended a run. */
  lemma {:induction false} LastStep(c: Callback, start: Pc, reply: nat -> Answer, n: nat) returns (j: nat)
    requires !start.Done? && After(c, start, reply, n).Done?
    ensures j < n && j < |Trace(c, start, reply, n)| && !After(c, start, reply, j).Done?
    ensures After(c, start, reply, n) == Next(c, After(c, start, reply, j), reply(j))
  {
    if After(c, start, reply, n - 1).Done? {
      j := LastStep(c, start, reply, n - 1);
    } else {
      j := n - 1;
      TraceLength(c, start, reply, n - 1);
    }
  }

  lemma {:induction false} DoneStays(c: Callback, start: Pc, reply: nat -> Answer, i: nat, n: nat)
    requires i <= n && After(c, start, reply, i).Done?
    ensures After(c, start, reply, n) == After(c, start, reply, i)
  {
    if i < n { DoneStays(c, start, reply, i, n - 1); }
  }

  lemma {:induction false} DirectPcs(c: Callback, reply: nat -> Answer, n: nat)
    requires n > 0
    ensures var pc := After(c, Inserting, reply, n); pc.Updating? || pc.Waiting? || pc.Done?
    ensures IsTerminal(c) ==> After(c, Inserting, reply, 1) != Done(200)
  {
    if n > 1 { DirectPcs(c, reply, n - 1); }
  }

  /** In direct mode a 200 means that the event is stored and, if it is terminal, that after the
      last update some row of this provider message is delivered or failed, as the callback says. */
  lemma DirectSuccess(c: Callback, reply: nat -> Answer, n: nat, before: nat -> Tables, after: nat -> Tables)
    requires After(c, Inserting, reply, n) == Done(200)
    requires AllServed(Trace(c, Inserting, reply, n), reply, before, after)
    ensures EventIn(after(0), c, Some(c.payload))
    ensures c.status == "delivered" ==> exists j: nat | 0 < j < |Trace(c, Inserting, reply, n)| :: RowTook(after(j), c, Delivered)
    ensures c.status == "failed" || c.status == "undelivered" ==>
              exists j: nat | 0 < j < |Trace(c, Inserting, reply, n)| :: RowTook(after(j), c, Failed)
  {
    var j := LastStep(c, Inserting, reply, n);
    TraceAt(c, Inserting, reply, n, j);
    TraceAt(c, Inserting, reply, n, 0);
    if After(c, Inserting, reply, 1).Done? { DoneStays(c, Inserting, reply, 1, n); }
    assert reply(0).ok;
    ServedInsert(c, Some(c.payload), reply(0), before(0), after(0));
    if IsTerminal(c) {
      assert j > 0;
      DirectPcs(c, reply, j);
      ServedUpdate(c, reply(j), before(j), after(j));
    }
  }

  /** The queue processor returns nil only after storing the event and, if it is terminal, after
      some row became delivered or failed, as the callback says. */
  lemma QueuedSuccess(c: Callback, reply: nat -> Answer, n: nat, before: nat -> Tables, after: nat -> Tables)
    requires var start := QueuedStart(c);
             After(c, start, reply, n) == Done(200) && AllServed(Trace(c, start, reply, n), reply, before, after)
    ensures c.status == "delivered" ==> RowTook(after(0), c, Delivered) && EventIn(after(1), c, None)
    ensures c.status == "failed" || c.status == "undelivered" ==> RowTook(after(0), c, Failed) && EventIn(after(1), c, None)
    ensures c.status != "delivered" && c.status != "failed" && c.status != "undelivered" ==> EventIn(after(0), c, None)
  {
    var start := QueuedStart(c);
    var j := LastStep(c, start, reply, n);
    TraceAt(c, start, reply, n, j);
    TraceAt(c, start, reply, n, 0);
    QueuedPcs(c, reply, j);
    ServedInsert(c, None, reply(j), before(j), after(j));
    if IsTerminal(c) { ServedUpdate(c, reply(0), before(0), after(0)); }
  }

  lemma {:induction false} QueuedPcs(c: Callback, reply: nat -> Answer, n: nat)
    ensures var start := QueuedStart(c); var pc := After(c, start, reply, n);
            || pc.Done? || (pc.Applying? && n == 0)
            || (pc.Recording? && (if IsTerminal(c) then n == 1 && reply(0).ok && reply(0).updated else n == 0))
  {
    if n > 0 { QueuedPcs(c, reply, n - 1); }
  }

  // ----- whole runs, in the callback's own words

  /** A whole run in direct mode: store the event; then, for a terminal status, up to ten updates with
      25, 50, ... 250 ms behind them, for as long as nothing fails and no row is found. */
  ghost predicate DirectRun(c: Callback, reply: nat -> Answer, log: seq<Question>, code: int) {
    |log| > 0 && DirectLog(c, reply, log, |log| - 1) && DirectAnswer(c, |log| - 1, reply(|log| - 1), code)
  }

  /** The questions so far, the first `n` of them answered in the way that leads on. */
  ghost predicate DirectLog(c: Callback, reply: nat -> Answer, log: seq<Question>, n: nat) {
    && 1 <= |log| <= 21
    && log[0] == InsertEvent(DeliveryEvent(c.provider, c.sid, c.status, if c.errorCode == "" then None else Some(c.errorCode), Some(c.payload), 0))
    && (forall i | 0 < i < |log| && i % 2 == 1 ::
          log[i] == UpdateMessage(c.provider, c.sid, if c.status == "delivered" then Delivered else Failed, c.errorCode))
    && (forall i | 0 < i < |log| && i % 2 == 0 :: log[i] == Wait(25 * (i / 2)))
    && (n > 0 ==> c.status == "delivered" || c.status == "failed" || c.status == "undelivered")
    && (forall i: nat | i < n :: reply(i).ok && (i % 2 == 1 ==> !reply(i).updated))
  }

  /** What answer `a` to the last question, number `j`, makes of the run. */
  predicate DirectAnswer(c: Callback, j: nat, a: Answer, code: int) {
    if j > 0 && j % 2 == 0 then code == 503 && (!a.ok || j == 20)
    else if !a.ok then code == (if a.timeout then 503 else 500)
    else code == 200 && if j == 0 then c.status != "delivered" && c.status != "failed" && c.status != "undelivered" else a.updated
  }

  /** Where a direct run stands after the questions of `log`. */
  ghost predicate DirectAt(c: Callback, reply: nat -> Answer, log: seq<Question>, pc: Pc) {
    match pc
    case Inserting => log == []
    case Updating(k) => k < 10 && |log| == 2 * k + 1 && DirectLog(c, reply, log, |log|)
    case Waiting(k) => k < 10 && |log| == 2 * k + 2 && DirectLog(c, reply, log, |log|)
    case Done(code) => DirectRun(c, reply, log, code)
    case _ => false
  }

  lemma DirectAtNext(c: Callback, reply: nat -> Answer, log: seq<Question>, pc: Pc)
    requires !pc.Done? && DirectAt(c, reply, log, pc)
    ensures DirectAt(c, reply, log + [QuestionOf(c, pc)], Next(c, pc, reply(|log|)))
  {
  }

  lemma {:induction false} DirectTrace(c: Callback, reply: nat -> Answer, n: nat)
    ensures DirectAt(c, reply, Trace(c, Inserting, reply, n), After(c, Inserting, reply, n))
  {
    if n > 0 {
      DirectTrace(c, reply, n - 1);
      TraceLength(c, Inserting, reply, n - 1);
      var pc := After(c, Inserting, reply, n - 1);
      if !pc.Done? { DirectAtNext(c, reply, Trace(c, Inserting, reply, n - 1), pc); }
    }
  }

  /** A whole run of the handler behind its form and signature: an ingest-only handler passes the
      callback on; 500 without what it needs. */
  ghost predicate Handled(h: Handler, c: Callback, reply: nat -> Answer, log: seq<Question>, code: int) {
    if if h.useQueue then !h.hasQueue else !h.hasStore then log == [] && code == 500
    else if h.useQueue then log == [EnqueueCallback(c.provider, c.sid, c.status, c.errorCode)] && code == (if reply(0).ok then 200 else 503)
    else DirectRun(c, reply, log, code)
  }

  lemma HandledAsSaid(h: Handler, c: Callback, reply: nat -> Answer, n: nat, code: int)
    requires After(c, StartOf(h), reply, n) == Done(code)
    ensures Handled(h, c, reply, Trace(c, StartOf(h), reply, n), code)
  {
    if StartOf(h).Done? {
      DoneStays(c, StartOf(h), reply, 0, n);
      TraceStops(c, StartOf(h), reply, 0, n);
    } else if h.useQueue {
      assert After(c, Enqueueing, reply, 1).Done? && Trace(c, Enqueueing, reply, 0) == [];
      DoneStays(c, Enqueueing, reply, 1, n);
      TraceStops(c, Enqueueing, reply, 1, n);
    } else {
      DirectTrace(c, reply, n);
    }
  }

  /** A whole run of the queue processor: a terminal callback updates first, and is stored only if that
      found a row. */
  ghost predicate QueueRun(c: Callback, reply: nat -> Answer, log: seq<Question>, ok: bool) {
    var insert := InsertEvent(DeliveryEvent(c.provider, c.sid, c.status, if c.errorCode == "" then None else Some(c.errorCode), None, 0));
    if c.status == "delivered" || c.status == "failed" || c.status == "undelivered" then
      var update := UpdateMessage(c.provider, c.sid, if c.status == "delivered" then Delivered else Failed, c.errorCode);
      if reply(0).ok && reply(0).updated then log == [update, insert] && ok == reply(1).ok else log == [update] && !ok
    else log == [insert] && ok == reply(0).ok
  }

  lemma ProcessedAsSaid(c: Callback, reply: nat -> Answer, n: nat, ok: bool)
    requires After(c, QueuedStart(c), reply, n) == Done(if ok then 200 else 500)
    ensures QueueRun(c, reply, Trace(c, QueuedStart(c), reply, n), ok)
  {
    var start := QueuedStart(c);
    assert Trace(c, start, reply, 0) == [];
    assert After(c, start, reply, 1) == Next(c, start, reply(0)) && Trace(c, start, reply, 1) == [QuestionOf(c, start)];
    var k := if After(c, start, reply, 1).Done? then 1 else 2;
    if k == 2 { assert Trace(c, start, reply, 2) == [QuestionOf(c, start), QuestionOf(c, Recording)]; }
    assert After(c, start, reply, 0) == start && k <= n;
    DoneStays(c, start, reply, k, n);
    TraceStops(c, start, reply, k, n);
  }

  /** What the update of callback `c` makes of a row. */
  predicate RowFollows(c: Callback, now: int, r: Row, r': Row) {
    if r.provider == Some(c.provider) && r.sid == Some(c.sid) && (c.status == "delivered" || c.status == "failed" || c.status == "undelivered")
    then r' == r.(state := if c.status == "delivered" then Delivered else Failed,
                  lastError := if c.errorCode == "" then None else Some(c.errorCode), updatedAt := now)
    else r' == r
  }

  /** Both modes make the same of the rows, and store the same but for the payload: a delivered callback
      makes its rows delivered, a failed or undelivered one failed, and any other changes no row. */
  lemma ModesMean(t: Tables, c: Callback, at: int, now: int)
    ensures var u := Direct(t, c, at, now);
            && u.messages.Keys == t.messages.Keys && (forall id <- t.messages :: RowFollows(c, now, t.messages[id], u.messages[id]))
            && u.events == t.events + [DeliveryEvent(c.provider, c.sid, c.status, if c.errorCode == "" then None else Some(c.errorCode), Some(c.payload), at)]
    ensures var v := Queued(t, c, at, now);
            && v.messages.Keys == t.messages.Keys && (forall id <- t.messages :: RowFollows(c, now, t.messages[id], v.messages[id]))
            && (Found(t, c) ==> v.events == t.events + [DeliveryEvent(c.provider, c.sid, c.status, if c.errorCode == "" then None else Some(c.errorCode), None, at)])
            && (!Found(t, c) ==> v == t)
  {
  }

  lemma FoundMeans(t: Tables, c: Callback)
    ensures Found(t, c) <==>
              || (c.status != "delivered" && c.status != "failed" && c.status != "undelivered")
              || exists id <- t.messages :: t.messages[id].provider == Some(c.provider) && t.messages[id].sid == Some(c.sid)
  {
    if id :| id in t.messages && t.messages[id].provider == Some(c.provider) && t.messages[id].sid == Some(c.sid) {
      assert Matches(t.messages[id], c.provider, c.sid);
    }
  }

  function Asleep(asked: seq<Question>): int {
    if asked == [] then 0
    else Asleep(asked[..|asked| - 1]) + (if asked[|asked| - 1].Wait? then asked[|asked| - 1].ms else 0)
  }

  /** 25 + 50 + ... + 25 * n milliseconds. */
  function Naps(n: nat): nat {
    if n == 0 then 0 else Naps(n - 1) + 25 * n
  }

  lemma NapsOfTen()
    ensures forall n: nat | n <= 10 :: Naps(n) <= 1375
  {
    assert Naps(1) == 25 && Naps(2) == 75 && Naps(3) == 150 && Naps(4) == 250 && Naps(5) == 375;
    assert Naps(6) == 525 && Naps(7) == 700 && Naps(8) == 900 && Naps(9) == 1125 && Naps(10) == 1375;
  }

  lemma NapsBound(n: nat)
    requires n <= 10
    ensures Naps(n) <= 1375 && (n > 0 ==> Naps(n) == Naps(n - 1) + 25 * n)
  {
    NapsOfTen();
  }

  /** How far a direct run has come after `asked` questions and `slept` milliseconds. */
  predicate Effort(pc: Pc, asked: nat, slept: int) {
    match pc
    case Inserting => asked == 0 && slept == 0
    case Updating(k) => k < 10 && asked == 2 * k + 1 && slept == Naps(k)
    case Waiting(k) => k < 10 && asked == 2 * k + 2 && slept == Naps(k)
    case Done(_) => asked <= 21 && 0 <= slept <= 1375
    case _ => false
  }

  lemma EffortStep(c: Callback, pc: Pc, a: Answer, asked: nat, slept: int)
    requires !pc.Done? && Effort(pc, asked, slept)
    ensures Effort(Next(c, pc, a), asked + 1, slept + (if pc.Waiting? then 25 * (pc.attempt + 1) else 0))
  {
    if pc.Updating? { NapsBound(pc.attempt); }
    if pc.Waiting? { NapsBound(pc.attempt + 1); }
  }

  lemma AsleepMore(asked: seq<Question>, q: Question)
    ensures Asleep(asked + [q]) == Asleep(asked) + (if q.Wait? then q.ms else 0)
  {
    assert (asked + [q])[..|asked|] == asked;
  }

  /** One more question. */
  lemma OneMoreStep(c: Callback, start: Pc, reply: nat -> Answer, n: nat)
    requires !After(c, start, reply, n).Done?
    ensures var pc, asked := After(c, start, reply, n), Trace(c, start, reply, n);
            && After(c, start, reply, n + 1) == Next(c, pc, reply(n))
            && Trace(c, start, reply, n + 1) == asked + [QuestionOf(c, pc)]
            && |Trace(c, start, reply, n + 1)| == |asked| + 1
            && Asleep(Trace(c, start, reply, n + 1)) == Asleep(asked) + (if pc.Waiting? then 25 * (pc.attempt + 1) else 0)
  {
    AsleepMore(Trace(c, start, reply, n), QuestionOf(c, After(c, start, reply, n)));
  }

  /** The effort of the first `n` steps of a direct run. */
  ghost predicate EffortAt(c: Callback, reply: nat -> Answer, n: nat) {
    Effort(After(c, Inserting, reply, n), |Trace(c, Inserting, reply, n)|, Asleep(Trace(c, Inserting, reply, n)))
  }

  lemma EffortNext(c: Callback, reply: nat -> Answer, n: nat)
    requires !After(c, Inserting, reply, n).Done? && EffortAt(c, reply, n)
    ensures EffortAt(c, reply, n + 1)
  {
    var asked := Trace(c, Inserting, reply, n);
    OneMoreStep(c, Inserting, reply, n);
    EffortStep(c, After(c, Inserting, reply, n), reply(n), |asked|, Asleep(asked));
  }

  lemma NoEffortYet(c: Callback, reply: nat -> Answer)
    ensures EffortAt(c, reply, 0)
  {
  }

  lemma EffortStays(c: Callback, reply: nat -> Answer, n: nat)
    requires After(c, Inserting, reply, n).Done? && EffortAt(c, reply, n)
    ensures EffortAt(c, reply, n + 1)
  {
    DoneStays(c, Inserting, reply, n, n + 1);
    TraceStops(c, Inserting, reply, n, n + 1);
  }

  lemma {:induction false} DirectEffort(c: Callback, reply: nat -> Answer, n: nat)
    ensures EffortAt(c, reply, n)
  {
    if n == 0 {
      NoEffortYet(c, reply);
    } else {
      DirectEffort(c, reply, n - 1);
      if After(c, Inserting, reply, n - 1).Done? { EffortStays(c, reply, n - 1); } else { EffortNext(c, reply, n - 1); }
    }
  }

  /** A direct callback makes one insert, at most ten updates and at most ten waits, 1.375 s in all. */
  lemma DirectIsBounded(c: Callback, reply: nat -> Answer, n: nat)
    ensures |Trace(c, Inserting, reply, n)| <= 21 && 0 <= Asleep(Trace(c, Inserting, reply, n)) <= 1375
  {
    DirectEffort(c, reply, n);
    NapsOfTen();
  }

  lemma {:induction false} TraceStops(c: Callback, start: Pc, reply: nat -> Answer, i: nat, n: nat)
    requires i <= n && After(c, start, reply, i).Done?
    ensures Trace(c, start, reply, n) == Trace(c, start, reply, i)
  {
    if i < n {
      DoneStays(c, start, reply, i, n - 1);
      TraceStops(c, start, reply, i, n - 1);
    }
  }

  /** When no call fails, a 503 means that all ten updates and all ten waits were made. */
  lemma NoRowMeansTenTries(c: Callback, reply: nat -> Answer, n: nat)
    requires After(c, Inserting, reply, n) == Done(503) && forall i: nat | i < n :: reply(i).ok
    ensures |Trace(c, Inserting, reply, n)| == 21 && Asleep(Trace(c, Inserting, reply, n)) == 1375
  {
    var j := LastStep(c, Inserting, reply, n);
    assert reply(j).ok;
    DirectEffort(c, reply, j);
    LastOfTen(c, reply, j);
    TraceStops(c, Inserting, reply, j + 1, n);
  }

  lemma LastOfTen(c: Callback, reply: nat -> Answer, j: nat)
    requires !After(c, Inserting, reply, j).Done? && EffortAt(c, reply, j) && reply(j).ok
    requires Next(c, After(c, Inserting, reply, j), reply(j)) == Done(503)
    ensures After(c, Inserting, reply, j + 1).Done?
    ensures |Trace(c, Inserting, reply, j + 1)| == 21 && Asleep(Trace(c, Inserting, reply, j + 1)) == 1375
  {
    LastWait(c, After(c, Inserting, reply, j), reply(j), |Trace(c, Inserting, reply, j)|, Asleep(Trace(c, Inserting, reply, j)));
    OneMoreStep(c, Inserting, reply, j);
  }

  lemma LastWait(c: Callback, pc: Pc, a: Answer, asked: nat, slept: int)
    requires !pc.Done? && Effort(pc, asked, slept) && a.ok && Next(c, pc, a) == Done(503)
    ensures pc == Waiting(9) && asked == 20 && slept == 1125
  {
    NapsOfTen();
    assert Naps(9) == 1125;
  }

  // ----- the two modes compared, one callback at a time

  /** One question served while nobody else is about and nothing fails. */
  ghost predicate ServedAlone(q: Question, a: Answer, t: Tables, u: Tables) {
    a.ok && Served(q, a, t, u) && (q.Wait? ==> u == t)
  }

  /** `n` steps from `start` in which every question is served on the tables that the previous one left. */
  ghost predicate Alone(c: Callback, start: Pc, reply: nat -> Answer, n: nat, ts: nat -> Tables) {
    forall i: nat {:trigger ts(i)} | i < n :: StepAlone(c, start, reply, i, ts(i), ts(i + 1))
  }

  ghost predicate StepAlone(c: Callback, start: Pc, reply: nat -> Answer, i: nat, t: Tables, u: Tables) {
    var pc := After(c, start, reply, i);
    if pc.Done? then u == t else ServedAlone(QuestionOf(c, pc), reply(i), t, u)
  }

  /** What direct mode amounts to: store the event, then update whatever rows there are. */
  function Direct(t: Tables, c: Callback, at: int, now: int): Tables {
    var u := InsertDeliveryEvent(t, Received(Stored(c, Some(c.payload)), at));
    if IsTerminal(c) then UpdateByProviderMsgID(u, c.provider, c.sid, R.StateOf(c.status), c.errorCode, now) else u
  }

  /** What queue mode amounts to: a terminal event whose row is not there yet is refused. */
  function Queued(t: Tables, c: Callback, at: int, now: int): Tables {
    if IsTerminal(c) && !AnyMatch(t, c.provider, c.sid) then t
    else
      var u := if IsTerminal(c) then UpdateByProviderMsgID(t, c.provider, c.sid, R.StateOf(c.status), c.errorCode, now) else t;
      InsertDeliveryEvent(u, Received(Stored(c, None), at))
  }

  /** A terminal callback finds a row. */
  ghost predicate Found(t: Tables, c: Callback) {
    IsTerminal(c) ==> AnyMatch(t, c.provider, c.sid)
  }

  ghost predicate IsLogged(t: Tables, c: Callback, u: Tables) {
    exists at :: u == InsertDeliveryEvent(t, Received(Stored(c, Some(c.payload)), at))
  }

  ghost predicate IsDirect(t: Tables, c: Callback, u: Tables) {
    exists at, now :: u == Direct(t, c, at, now)
  }

  ghost predicate IsQueued(t: Tables, c: Callback, u: Tables) {
    exists at, now :: u == Queued(t, c, at, now)
  }

  /** Where a direct run alone on the tables stands, having started from `t`. */
  ghost predicate DirectStands(c: Callback, t: Tables, pc: Pc, u: Tables) {
    match pc
    case Inserting => u == t
    case Updating(k) => k < 10 && IsTerminal(c) && IsLogged(t, c, u) && (k > 0 ==> !Found(t, c))
    case Waiting(k) => k < 10 && IsTerminal(c) && IsLogged(t, c, u) && !Found(t, c)
    case Done(code) => IsDirect(t, c, u) && code == (if Found(t, c) then 200 else 503)
    case _ => false
  }

  lemma NoMatchNoChange(t: Tables, c: Callback, now: int)
    requires !AnyMatch(t, c.provider, c.sid)
    ensures UpdateByProviderMsgID(t, c.provider, c.sid, R.StateOf(c.status), c.errorCode, now) == t
  {
    assert RestateMatching(t.messages, c.provider, c.sid, R.StateOf(c.status), c.errorCode, now) == t.messages;
  }

  lemma InsertedAlone(c: Callback, a: Answer, t: Tables, u: Tables)
    requires ServedAlone(QuestionOf(c, Inserting), a, t, u)
    ensures DirectStands(c, t, Next(c, Inserting, a), u)
  {
    var at :| u == InsertDeliveryEvent(t, Received(Stored(c, Some(c.payload)), at));
    if !IsTerminal(c) { assert u == Direct(t, c, at, 0); }
  }

  lemma UpdatedAlone(c: Callback, a: Answer, k: nat, t: Tables, u: Tables, u': Tables)
    requires DirectStands(c, t, Updating(k), u) && ServedAlone(QuestionOf(c, Updating(k)), a, u, u')
    ensures DirectStands(c, t, Next(c, Updating(k), a), u')
  {
    var at :| u == InsertDeliveryEvent(t, Received(Stored(c, Some(c.payload)), at));
    var now :| u' == UpdateByProviderMsgID(u, c.provider, c.sid, R.StateOf(c.status), c.errorCode, now);
    if a.updated {
      assert u' == Direct(t, c, at, now);
    } else {
      NoMatchNoChange(u, c, now);
    }
  }

  lemma WaitedAlone(c: Callback, a: Answer, k: nat, t: Tables, u: Tables)
    requires DirectStands(c, t, Waiting(k), u) && a.ok
    ensures DirectStands(c, t, Next(c, Waiting(k), a), u)
  {
    if k == 9 {
      var at :| u == InsertDeliveryEvent(t, Received(Stored(c, Some(c.payload)), at));
      NoMatchNoChange(u, c, 0);
      assert u == Direct(t, c, at, 0);
    }
  }

  lemma DirectStepAlone(c: Callback, t: Tables, pc: Pc, a: Answer, u: Tables, u': Tables)
    requires !pc.Done? && DirectStands(c, t, pc, u) && ServedAlone(QuestionOf(c, pc), a, u, u')
    ensures DirectStands(c, t, Next(c, pc, a), u')
  {
    match pc
    case Inserting => InsertedAlone(c, a, t, u');
    case Updating(k) => UpdatedAlone(c, a, k, t, u, u');
    case Waiting(k) => WaitedAlone(c, a, k, t, u);
  }

  lemma {:induction false} DirectRunStands(c: Callback, reply: nat -> Answer, n: nat, ts: nat -> Tables)
    requires Alone(c, Inserting, reply, n, ts)
    ensures DirectStands(c, ts(0), After(c, Inserting, reply, n), ts(n))
  {
    if n > 0 {
      DirectRunStands(c, reply, n - 1, ts);
      var pc := After(c, Inserting, reply, n - 1);
      assert StepAlone(c, Inserting, reply, n - 1, ts(n - 1), ts(n));
      if !pc.Done? { DirectStepAlone(c, ts(0), pc, reply(n - 1), ts(n - 1), ts(n)); }
    }
  }

  /** A direct run alone on the tables that has ended stored the event and updated whatever rows there
      were, even when all ten updates matched nothing; it answers 200 if there was nothing to update
      or a row was found, and 503 otherwise. */
  lemma DirectRunIs(c: Callback, reply: nat -> Answer, n: nat, ts: nat -> Tables)
    requires Alone(c, Inserting, reply, n, ts) && After(c, Inserting, reply, n).Done?
    ensures IsDirect(ts(0), c, ts(n)) && After(c, Inserting, reply, n) == Done(if Found(ts(0), c) then 200 else 503)
  {
    DirectRunStands(c, reply, n, ts);
  }

  /** Where a run of the queue processor alone on the tables stands. */
  ghost predicate QueuedStands(c: Callback, t: Tables, pc: Pc, u: Tables) {
    match pc
    case Applying => u == t && IsTerminal(c)
    case Recording =>
      if IsTerminal(c) then Found(t, c) && exists now :: u == UpdateByProviderMsgID(t, c.provider, c.sid, R.StateOf(c.status), c.errorCode, now)
      else u == t
    case Done(code) => IsQueued(t, c, u) && code == (if Found(t, c) then 200 else 500)
    case _ => false
  }

  lemma AppliedAlone(c: Callback, a: Answer, t: Tables, u: Tables)
    requires IsTerminal(c) && ServedAlone(QuestionOf(c, Applying), a, t, u)
    ensures QueuedStands(c, t, Next(c, Applying, a), u)
  {
    var now :| u == UpdateByProviderMsgID(t, c.provider, c.sid, R.StateOf(c.status), c.errorCode, now);
    if !a.updated {
      NoMatchNoChange(t, c, now);
      assert u == Queued(t, c, 0, 0);
    }
  }

  lemma RecordedAlone(c: Callback, a: Answer, t: Tables, u: Tables, u': Tables)
    requires QueuedStands(c, t, Recording, u) && ServedAlone(QuestionOf(c, Recording), a, u, u')
    ensures QueuedStands(c, t, Next(c, Recording, a), u')
  {
    var at :| u' == InsertDeliveryEvent(u, Received(Stored(c, None), at));
    if IsTerminal(c) {
      var now :| u == UpdateByProviderMsgID(t, c.provider, c.sid, R.StateOf(c.status), c.errorCode, now);
      assert u' == Queued(t, c, at, now);
    } else {
      assert u' == Queued(t, c, at, 0);
    }
  }

  lemma QueuedStepAlone(c: Callback, t: Tables, pc: Pc, a: Answer, u: Tables, u': Tables)
    requires !pc.Done? && QueuedStands(c, t, pc, u) && ServedAlone(QuestionOf(c, pc), a, u, u')
    ensures QueuedStands(c, t, Next(c, pc, a), u')
  {
    match pc
    case Applying => AppliedAlone(c, a, t, u');
    case Recording => RecordedAlone(c, a, t, u, u');
  }

  lemma {:induction false} QueuedRunStands(c: Callback, reply: nat -> Answer, n: nat, ts: nat -> Tables)
    requires Alone(c, QueuedStart(c), reply, n, ts)
    ensures QueuedStands(c, ts(0), After(c, QueuedStart(c), reply, n), ts(n))
  {
    if n > 0 {
      QueuedRunStands(c, reply, n - 1, ts);
      var pc := After(c, QueuedStart(c), reply, n - 1);
      assert StepAlone(c, QueuedStart(c), reply, n - 1, ts(n - 1), ts(n));
      if !pc.Done? { QueuedStepAlone(c, ts(0), pc, reply(n - 1), ts(n - 1), ts(n)); }
    }
  }

  /** A run of the queue processor alone on the tables updated and then stored, and returned nil, if
      there was nothing to update or a row was found; otherwise it did nothing and returned an error. */
  lemma QueuedRunIs(c: Callback, reply: nat -> Answer, n: nat, ts: nat -> Tables)
    requires Alone(c, QueuedStart(c), reply, n, ts) && After(c, QueuedStart(c), reply, n).Done?
    ensures IsQueued(ts(0), c, ts(n)) && After(c, QueuedStart(c), reply, n) == Done(if Found(ts(0), c) then 200 else 500)
  {
    QueuedRunStands(c, reply, n, ts);
  }

  /** Some complete run, alone on the tables, handles `c` and turns `t` into `u`. */
  ghost predicate Handles(c: Callback, start: Pc, t: Tables, u: Tables) {
    exists reply, n, ts :: Turns(c, start, reply, n, ts, t, u)
  }

  ghost predicate Turns(c: Callback, start: Pc, reply: nat -> Answer, n: nat, ts: nat -> Tables, t: Tables, u: Tables) {
    Alone(c, start, reply, n, ts) && After(c, start, reply, n).Done? && ts(0) == t && ts(n) == u
  }

  /** `us[i + 1]` is what direct mode makes of `us[i]` for callback `i`. */
  ghost predicate DirectRuns(cs: seq<Callback>, us: seq<Tables>) {
    |us| == |cs| + 1 && forall i | 0 <= i < |cs| :: Handles(cs[i], Inserting, us[i], us[i + 1])
  }

  ghost predicate QueuedRuns(cs: seq<Callback>, vs: seq<Tables>) {
    |vs| == |cs| + 1 && forall i | 0 <= i < |cs| :: Handles(cs[i], QueuedStart(cs[i]), vs[i], vs[i + 1])
  }

  /** The answer the store gives when nobody else is about, and the tables it leaves. */
  function AnswerAlone(q: Question, t: Tables): Answer {
    Answer(true, false, q.UpdateMessage? && AnyMatch(t, q.provider, q.sid))
  }

  function TablesAlone(q: Question, t: Tables): Tables {
    match q
    case InsertEvent(e) => InsertDeliveryEvent(t, e)
    case UpdateMessage(provider, sid, state, lastError) => UpdateByProviderMsgID(t, provider, sid, state, lastError, 0)
    case _ => t
  }

  /** Where a run alone on the tables stands after `i` steps. */
  function StandsAfter(c: Callback, start: Pc, t: Tables, i: nat): (Pc, Tables) {
    if i == 0 then (start, t)
    else
      var (pc, u) := StandsAfter(c, start, t, i - 1);
      if pc.Done? then (pc, u) else (Next(c, pc, AnswerAlone(QuestionOf(c, pc), u)), TablesAlone(QuestionOf(c, pc), u))
  }

  function AnswerAt(c: Callback, start: Pc, t: Tables, i: nat): Answer {
    var (pc, u) := StandsAfter(c, start, t, i);
    if pc.Done? then Answer(true, false, false) else AnswerAlone(QuestionOf(c, pc), u)
  }

  lemma {:induction false} StandsAsSaid(c: Callback, start: Pc, t: Tables, reply: nat -> Answer, i: nat)
    requires forall i: nat {:trigger reply(i)} :: reply(i) == AnswerAt(c, start, t, i)
    ensures After(c, start, reply, i) == StandsAfter(c, start, t, i).0
  {
    if i > 0 {
      StandsAsSaid(c, start, t, reply, i - 1);
      assert reply(i - 1) == AnswerAt(c, start, t, i - 1);
    }
  }

  lemma IsServedAlone(q: Question, t: Tables)
    ensures ServedAlone(q, AnswerAlone(q, t), t, TablesAlone(q, t))
  {
    match q
    case InsertEvent(e) => assert TablesAlone(q, t) == InsertDeliveryEvent(t, Received(e, e.receivedAt));
    case _ =>
  }

  lemma RunsAlone(c: Callback, start: Pc, t: Tables, n: nat) returns (reply: nat -> Answer, ts: nat -> Tables)
    ensures Alone(c, start, reply, n, ts) && ts(0) == t
  {
    reply := (i: nat) => AnswerAt(c, start, t, i);
    ts := (i: nat) => StandsAfter(c, start, t, i).1;
    IsAlone(c, start, t, reply, n, ts);
  }

  lemma IsAlone(c: Callback, start: Pc, t: Tables, reply: nat -> Answer, n: nat, ts: nat -> Tables)
    requires forall i: nat {:trigger reply(i)} :: reply(i) == AnswerAt(c, start, t, i)
    requires forall i: nat {:trigger ts(i)} :: ts(i) == StandsAfter(c, start, t, i).1
    ensures Alone(c, start, reply, n, ts)
  {
    forall i: nat | i < n ensures StepAlone(c, start, reply, i, ts(i), ts(i + 1)) {
      StepsAlone(c, start, t, reply, i);
      assert ts(i) == StandsAfter(c, start, t, i).1;
      assert ts(i + 1) == StandsAfter(c, start, t, i + 1).1;
    }
  }

  lemma StepsAlone(c: Callback, start: Pc, t: Tables, reply: nat -> Answer, i: nat)
    requires forall i: nat {:trigger reply(i)} :: reply(i) == AnswerAt(c, start, t, i)
    ensures StepAlone(c, start, reply, i, StandsAfter(c, start, t, i).1, StandsAfter(c, start, t, i + 1).1)
  {
    StandsAsSaid(c, start, t, reply, i);
    var (pc, u) := StandsAfter(c, start, t, i);
    if !pc.Done? { IsServedAlone(QuestionOf(c, pc), u); }
  }

  /** Every callback can be handled alone, in either mode, from any tables. */
  lemma CanBeHandled(c: Callback, t: Tables)
    ensures exists u :: Handles(c, Inserting, t, u)
    ensures exists v :: Handles(c, QueuedStart(c), t, v)
  {
    var reply, ts := RunsAlone(c, Inserting, t, 22);
    DirectIsBounded(c, reply, 22);
    TraceLength(c, Inserting, reply, 22);
    assert Turns(c, Inserting, reply, 22, ts, t, ts(22));
    var reply', ts' := RunsAlone(c, QueuedStart(c), t, 2);
    QueuedPcs(c, reply', 2);
    assert Turns(c, QueuedStart(c), reply', 2, ts', t, ts'(2));
    assert Handles(c, Inserting, t, ts(22)) && Handles(c, QueuedStart(c), t, ts'(2));
  }

  lemma HandledDirectly(c: Callback, t: Tables, u: Tables)
    requires Handles(c, Inserting, t, u)
    ensures IsDirect(t, c, u)
  {
    var reply, n, ts :| Turns(c, Inserting, reply, n, ts, t, u);
    DirectRunIs(c, reply, n, ts);
  }

  lemma HandledQueued(c: Callback, t: Tables, u: Tables)
    requires Handles(c, QueuedStart(c), t, u)
    ensures IsQueued(t, c, u)
  {
    var reply, n, ts :| Turns(c, QueuedStart(c), reply, n, ts, t, u);
    QueuedRunIs(c, reply, n, ts);
  }

  predicate SameRow(r: Row, r': Row) {
    r.(updatedAt := 0) == r'.(updatedAt := 0)
  }

  predicate SameEvent(e: DeliveryEvent, f: DeliveryEvent) {
    e.(payload := None, receivedAt := 0) == f.(payload := None, receivedAt := 0)
  }

  ghost predicate SameRows(t: Tables, u: Tables) {
    && t.messages.Keys == u.messages.Keys && t.byKey == u.byKey && t.caps == u.caps && t.attempts == u.attempts
    && (forall id <- t.messages :: SameRow(t.messages[id], u.messages[id]))
  }

  ghost predicate SameEvents(es: seq<DeliveryEvent>, fs: seq<DeliveryEvent>) {
    |es| == |fs| && forall i | 0 <= i < |es| :: SameEvent(es[i], fs[i])
  }

  /** Equal up to payloads and timestamps. */
  ghost predicate SameTables(t: Tables, u: Tables) {
    SameRows(t, u) && SameEvents(t.events, u.events)
  }

  lemma SameRowsMatch(t: Tables, u: Tables, provider: string, sid: string)
    requires SameRows(t, u)
    ensures AnyMatch(t, provider, sid) == AnyMatch(u, provider, sid)
  {
    forall id <- t.messages ensures Matches(t.messages[id], provider, sid) == Matches(u.messages[id], provider, sid) {
      assert SameRow(t.messages[id], u.messages[id]);
    }
  }

  lemma UpdateSameRows(t: Tables, u: Tables, c: Callback, now: int, now': int)
    requires SameRows(t, u)
    ensures SameRows(UpdateByProviderMsgID(t, c.provider, c.sid, R.StateOf(c.status), c.errorCode, now),
                     UpdateByProviderMsgID(u, c.provider, c.sid, R.StateOf(c.status), c.errorCode, now'))
  {
    forall id <- t.messages ensures Matches(t.messages[id], c.provider, c.sid) == Matches(u.messages[id], c.provider, c.sid) {
      assert SameRow(t.messages[id], u.messages[id]);
    }
  }

  lemma StepSameRows(t: Tables, u: Tables, c: Callback, at: int, now: int, at': int, now': int)
    requires SameRows(t, u)
    ensures SameRows(Direct(t, c, at, now), Queued(u, c, at', now'))
  {
    if IsTerminal(c) {
      SameRowsMatch(t, u, c.provider, c.sid);
      var v := InsertDeliveryEvent(t, Received(Stored(c, Some(c.payload)), at));
      if AnyMatch(t, c.provider, c.sid) { UpdateSameRows(v, u, c, now, now'); } else { NoMatchNoChange(v, c, now); }
    }
  }

  lemma DirectKeepsMatches(t: Tables, c: Callback, at: int, now: int, provider: string, sid: string)
    ensures AnyMatch(Direct(t, c, at, now), provider, sid) == AnyMatch(t, provider, sid)
  {
    var u := Direct(t, c, at, now);
    assert u.messages.Keys == t.messages.Keys;
    forall id <- t.messages ensures Matches(u.messages[id], provider, sid) == Matches(t.messages[id], provider, sid) {
    }
  }

  lemma {:induction false} MatchesStay(cs: seq<Callback>, us: seq<Tables>, k: nat, provider: string, sid: string)
    requires DirectRuns(cs, us) && k <= |cs|
    ensures AnyMatch(us[k], provider, sid) == AnyMatch(us[0], provider, sid)
  {
    if k > 0 {
      MatchesStay(cs, us, k - 1, provider, sid);
      HandledDirectly(cs[k - 1], us[k - 1], us[k]);
      var at, now :| us[k] == Direct(us[k - 1], cs[k - 1], at, now);
      DirectKeepsMatches(us[k - 1], cs[k - 1], at, now, provider, sid);
    }
  }

  /** After any number of callbacks handled one at a time and without failures, the message rows of
      both modes agree up to timestamps, found or not. */
  lemma {:induction false} RowsCompared(cs: seq<Callback>, us: seq<Tables>, vs: seq<Tables>, k: nat)
    requires DirectRuns(cs, us) && QueuedRuns(cs, vs) && us[0] == vs[0] && k <= |cs|
    ensures SameRows(us[k], vs[k])
  {
    if k > 0 {
      RowsCompared(cs, us, vs, k - 1);
      HandledDirectly(cs[k - 1], us[k - 1], us[k]);
      HandledQueued(cs[k - 1], vs[k - 1], vs[k]);
      var at, now :| us[k] == Direct(us[k - 1], cs[k - 1], at, now);
      var at', now' :| vs[k] == Queued(vs[k - 1], cs[k - 1], at', now');
      StepSameRows(us[k - 1], vs[k - 1], cs[k - 1], at, now, at', now');
    }
  }

  ghost predicate AllFound(t: Tables, cs: seq<Callback>) {
    forall c <- cs :: Found(t, c)
  }

  lemma FoundInBoth(cs: seq<Callback>, us: seq<Tables>, vs: seq<Tables>, k: nat, c: Callback)
    requires DirectRuns(cs, us) && QueuedRuns(cs, vs) && us[0] == vs[0] && k <= |cs|
    ensures Found(vs[k], c) == Found(us[0], c)
  {
    RowsCompared(cs, us, vs, k);
    SameRowsMatch(us[k], vs[k], c.provider, c.sid);
    MatchesStay(cs, us, k, c.provider, c.sid);
  }

  /** How the events compare: as many while all is found, fewer from the first that is not. */
  ghost predicate Compared(found: bool, es: seq<DeliveryEvent>, fs: seq<DeliveryEvent>) {
    |fs| <= |es| && if found then SameEvents(es, fs) else |fs| < |es|
  }

  lemma StepEvents(t: Tables, u: Tables, c: Callback, at: int, now: int, at': int, now': int, found: bool)
    requires Compared(found, t.events, u.events)
    ensures Compared(found && Found(u, c), Direct(t, c, at, now).events, Queued(u, c, at', now').events)
  {
  }

  /** The stored events are the same up to payloads and timestamps if every terminal callback finds
      its row, and queue mode stores fewer otherwise. */
  lemma {:induction false} EventsCompared(cs: seq<Callback>, us: seq<Tables>, vs: seq<Tables>, k: nat)
    requires DirectRuns(cs, us) && QueuedRuns(cs, vs) && us[0] == vs[0] && k <= |cs|
    ensures Compared(AllFound(us[0], cs[..k]), us[k].events, vs[k].events)
  {
    if k > 0 {
      EventsCompared(cs, us, vs, k - 1);
      HandledDirectly(cs[k - 1], us[k - 1], us[k]);
      HandledQueued(cs[k - 1], vs[k - 1], vs[k]);
      var at, now :| us[k] == Direct(us[k - 1], cs[k - 1], at, now);
      var at', now' :| vs[k] == Queued(vs[k - 1], cs[k - 1], at', now');
      StepEvents(us[k - 1], vs[k - 1], cs[k - 1], at, now, at', now', AllFound(us[0], cs[..k - 1]));
      FoundInBoth(cs, us, vs, k - 1, cs[k - 1]);
      OneMoreFound(us[0], cs, k);
    }
  }

  lemma OneMoreFound(t: Tables, cs: seq<Callback>, k: nat)
    requires 0 < k <= |cs|
    ensures AllFound(t, cs[..k]) <==> AllFound(t, cs[..k - 1]) && Found(t, cs[k - 1])
  {
    assert cs[..k] == cs[..k - 1] + [cs[k - 1]];
  }

  /** When the handler in direct mode and the queue processor handle the same callbacks one at a time
      and without failures, they leave equal tables, up to payloads and timestamps, if and only if
      every terminal callback finds its row. */
  lemma ModesAgreeIffFound(cs: seq<Callback>, us: seq<Tables>, vs: seq<Tables>)
    requires DirectRuns(cs, us) && QueuedRuns(cs, vs) && us[0] == vs[0]
    ensures SameTables(us[|cs|], vs[|cs|]) <==> AllFound(us[0], cs)
  {
    RowsCompared(cs, us, vs, |cs|);
    EventsCompared(cs, us, vs, |cs|);
    assert cs[..|cs|] == cs;
  }

  // ----- stored once, healed later

  /** Whatever a direct run is going to answer, once its insert has reported success the event is in
      the table, and stays there through any further events of the system. */
  lemma StoredForGood(cfg: System.Config, c: Callback, reply: nat -> Answer, n: nat, before: nat -> Tables, after: nat -> Tables,
                      s: System.Sys, future: seq<System.Event>)
    requires n > 0 && reply(0).ok && AllServed(Trace(c, Inserting, reply, n), reply, before, after) && s.t == after(0)
    ensures EventIn(s.t, c, Some(c.payload)) && EventIn(System.RunFrom(cfg, s, future).t, c, Some(c.payload))
    ensures exists at :: Received(Stored(c, Some(c.payload)), at) in System.RunFrom(cfg, s, future).t.events
  {
    FirstQuestion(c, reply, n);
    ServedInsert(c, Some(c.payload), reply(0), before(0), after(0));
    EventsStay(cfg, s, future);
    var at :| Received(Stored(c, Some(c.payload)), at) in s.t.events;
    assert Received(Stored(c, Some(c.payload)), at) in System.RunFrom(cfg, s, future).t.events;
  }

  lemma {:induction false} FirstQuestion(c: Callback, reply: nat -> Answer, n: nat)
    requires n > 0
    ensures |Trace(c, Inserting, reply, n)| > 0 && Trace(c, Inserting, reply, n)[0] == InsertEvent(Stored(c, Some(c.payload)))
  {
    if n > 1 { FirstQuestion(c, reply, n - 1); } else { assert Trace(c, Inserting, reply, 0) == []; }
  }

  lemma EventKeepsEvents(cfg: System.Config, s: System.Sys, e: System.Event)
    ensures s.t.events <= System.Apply(cfg, s, e).t.events
  {
    if e.ApiStep? {
      if e.m in s.calls && !s.calls[e.m].pc.Done? { ApiKeepsEvents(cfg, s, e.m, e.choice); }
    } else if e.WorkStep? {
      if e.w in s.workers && !s.workers[e.w].pc.Done? && s.workers[e.w].id in s.lives { WorkKeepsEvents(cfg, s, e.w, e.choice); }
    }
  }

  lemma ApiKeepsEvents(cfg: System.Config, s: System.Sys, m: MessageId, ch: System.Choice)
    requires m in s.calls && !s.calls[m].pc.Done?
    ensures System.DoApi(cfg, s, m, ch).t.events == s.t.events
  {
  }

  lemma WorkKeepsEvents(cfg: System.Config, s: System.Sys, w: nat, ch: System.Choice)
    requires w in s.workers && !s.workers[w].pc.Done? && s.workers[w].id in s.lives
    ensures System.DoWork(cfg, s, w, ch).t.events == s.t.events
  {
  }

  lemma {:induction false} EventsStay(cfg: System.Config, s: System.Sys, es: seq<System.Event>)
    ensures s.t.events <= System.RunFrom(cfg, s, es).t.events
    decreases |es|
  {
    if es != [] {
      EventKeepsEvents(cfg, s, es[0]);
      EventsStay(cfg, System.Apply(cfg, s, es[0]), es[1..]);
    }
  }

  /** Healing: let a terminal callback's insert succeed in direct mode, and let its own updates and
      everything else in the system then go as they may.  Any row of its provider message that is
      found stuck has, after enough runs of the reconciler on an event table that stands still, the
      state of its latest terminal event. */
  lemma CallbackIsHealed(cfg: System.Config, c: Callback, reply: nat -> Answer, n: nat, before: nat -> Tables, after: nat -> Tables,
                         s: System.Sys, future: seq<System.Event>,
                         ts: seq<Tables>, fixes: seq<map<MessageId, DeliveryEvent>>, nows: seq<int>, now: int, k: nat, id: MessageId)
    requires n > 0 && reply(0).ok && AllServed(Trace(c, Inserting, reply, n), reply, before, after) && IsTerminal(c)
    requires s.t == after(0) && R.Batches(ts, fixes, nows, R.BATCH) && ts[0] == System.RunFrom(cfg, s, future).t
    requires R.Frozen(ts[0], nows, now) && |R.Eligible(ts[0], now)| <= k * R.BATCH && k <= |fixes|
    requires id in ts[0].messages && R.Stuck(ts[0].messages[id], now) && Matches(ts[0].messages[id], c.provider, c.sid)
    ensures id in ts[k].messages && System.Terminal(ts[k].messages[id].state)
    ensures exists last <- ts[0].events ::
              R.Decides(ts[0].events, last, ts[0].messages[id]) && R.DecidedBy(ts[0].messages[id], ts[k].messages[id], last)
  {
    StoredForGood(cfg, c, reply, n, before, after, s, future);
    var at :| Received(Stored(c, Some(c.payload)), at) in ts[0].events;
    R.EnoughRunsHeal(ts, fixes, nows, now, k, id, Received(Stored(c, Some(c.payload)), at));
  }
}
