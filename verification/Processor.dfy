/** The worker: `Process` takes one job, claims its message and tries to send it. */
module Processor {
  import opened Boundary
  import opened Tables
  import opened Template

  /** `MessageForWorker`: NULL columns read as empty strings. */
  datatype Message = Message(tenant: string, to: string, template: string, state: State, sid: string, vars: Vars)

  datatype Config = Config(templates: map<string, string>, hasLimiter: bool, claimStaleAfter: int)

  datatype CallError = TimedOut | OtherError

  /** What `executeWithBreaker` returns: the breaker refused, the provider said 2xx, or the call failed. */
  datatype CallResult = BreakerOpen | Accepted(sid: string, status: int) | CallFailed(error: CallError, status: int)

  datatype Question =
    | GetMessage(id: MessageId)
    | Claim(id: MessageId, staleAfter: int)
    | WaitForToken
    | Send(to: string, body: string)
    | RecordAttempt(id: MessageId, sid: string, status: int, failed: bool)
    | SetDetails(id: MessageId, provider: string, sid: string, state: State)
    | Mark(id: MessageId, state: State, reason: string)
    | Sleep(ms: int)

  /** One record answers every question: `ok` is "no error", `claimed` the claim's
      verdict, `message` the row read and `call` the outcome of a send. */
  datatype Answer = Answer(ok: bool, message: Message, claimed: bool, call: CallResult)

  const TWO_MINUTES := 120_000

  function StaleAfter(cfg: Config): int {
    if cfg.claimStaleAfter <= 0 then TWO_MINUTES else cfg.claimStaleAfter
  }

  function ShouldRetry(error: Option<CallError>, httpStatus: int): bool {
    match error
    case Some(e) => e.TimedOut?
    case None => httpStatus == 429 || httpStatus == 408 || 500 <= httpStatus <= 599
  }

  function Backoff(attempt: int): int {
    if attempt <= 0 then 200 else if attempt == 1 then 600 else 1400
  }

  /** Final or already submitted: nothing left to do for this job. */
  predicate Skips(m: Message) {
    m.state.Suppressed? || m.state.Delivered? || m.state.Failed? || (m.sid != "" && m.state.Submitted?)
  }

  /** Where a run stands: the next thing it asks for, with the locals it still needs. */
  datatype Pc =
    | Reading
    | Claiming(message: Message)
    | NoTemplate
    | Limiting(attempt: nat, to: string, body: string)
    | Calling(attempt: nat, to: string, body: string)
    | RecordingOk(sid: string, status: int)
    | Finishing(sid: string)
    | RecordingError(attempt: nat, to: string, body: string, error: CallError, status: int)
    | Napping(attempt: nat, ms: int, to: string, body: string)
    | GivingUp(reason: string)
    | Done(ok: bool)

  function QuestionOf(cfg: Config, id: MessageId, pc: Pc): Question
    requires !pc.Done?
  {
    match pc
    case Reading => GetMessage(id)
    case Claiming(_) => Claim(id, StaleAfter(cfg))
    case NoTemplate => Mark(id, Failed, "template_not_found")
    case Limiting(_, _, _) => WaitForToken
    case Calling(_, to, body) => Send(to, body)
    case RecordingOk(sid, status) => RecordAttempt(id, sid, status, false)
    case Finishing(sid) => SetDetails(id, "twilio", sid, Submitted)
    case RecordingError(_, _, _, _, status) => RecordAttempt(id, "", status, true)
    case Napping(_, ms, _, _) => Sleep(ms)
    case GivingUp(reason) => Mark(id, Failed, reason)
  }

  function StartAttempt(cfg: Config, attempt: nat, to: string, body: string): Pc {
    if attempt >= 3 then GivingUp("twilio_retry_exhausted")
    else if cfg.hasLimiter then Limiting(attempt, to, body)
    else Calling(attempt, to, body)
  }

  function Next(cfg: Config, pc: Pc, a: Answer): Pc
    requires !pc.Done?
  {
    match pc
    case Reading => if !a.ok then Done(false) else if Skips(a.message) then Done(true) else Claiming(a.message)
    case Claiming(m) =>
      if !a.ok then Done(false)
      else if !a.claimed then Done(true)
      else if m.template !in cfg.templates || cfg.templates[m.template] == "" then NoTemplate
      else StartAttempt(cfg, 0, m.to, Render(cfg.templates[m.template], m.vars))
    case NoTemplate => Done(false)
    case Limiting(n, to, body) => if a.ok then Calling(n, to, body) else Napping(n, 200, to, body)
    case Calling(n, to, body) =>
      (match a.call
       case BreakerOpen => Done(false)
       case Accepted(sid, status) => RecordingOk(sid, status)
       case CallFailed(e, status) => RecordingError(n, to, body, e, status))
    case RecordingOk(sid, _) => if a.ok then Finishing(sid) else Done(false)
    case Finishing(_) => Done(a.ok)
    case RecordingError(n, to, body, e, status) =>
      if !a.ok then Done(false)
      else if ShouldRetry(Some(e), status) then Napping(n, Backoff(n), to, body)
      else GivingUp("twilio_non_retryable")
    case Napping(n, _, to, body) => StartAttempt(cfg, n + 1, to, body)
    case GivingUp(_) => Done(false)
  }

  /** Where a run stands after `n` answers. */
  ghost function After(cfg: Config, reply: nat -> Answer, n: nat): Pc {
    if n == 0 then Reading
    else if After(cfg, reply, n - 1).Done? then After(cfg, reply, n - 1)
    else Next(cfg, After(cfg, reply, n - 1), reply(n - 1))
  }

  /** The questions of the first `n` steps. */
  ghost function Trace(cfg: Config, id: MessageId, reply: nat -> Answer, n: nat): seq<Question> {
    if n == 0 then []
    else if After(cfg, reply, n - 1).Done? then Trace(cfg, id, reply, n - 1)
    else Trace(cfg, id, reply, n - 1) + [QuestionOf(cfg, id, After(cfg, reply, n - 1))]
  }

  /** Everything asked so far is what the machine asks, and it now stands at `pc`. */
  ghost predicate At(cfg: Config, id: MessageId, o: Outside<Question, Answer>, pc: Pc)
    reads o
  {
    o.asked == Trace(cfg, id, o.reply, |o.asked|) && After(cfg, o.reply, |o.asked|) == pc
  }

  /** Asks the outside for what the machine asks for at `pc`. */
  method Call(cfg: Config, id: MessageId, o: Outside<Question, Answer>, ghost pc: Pc, q: Question) returns (a: Answer)
    requires !pc.Done? && At(cfg, id, o, pc) && q == QuestionOf(cfg, id, pc)
    modifies o
    ensures At(cfg, id, o, Next(cfg, pc, a))
  {
    a := o.Ask(q);
  }

  /** Records a failed send, and either gives up or sleeps before the next attempt. */
  method AfterFailure(cfg: Config, id: MessageId, o: Outside<Question, Answer>, attempt: nat, to: string, body: string,
                      error: CallError, status: int)
    returns (over: bool)
    requires At(cfg, id, o, RecordingError(attempt, to, body, error, status))
    modifies o
    ensures At(cfg, id, o, if over then Done(false) else StartAttempt(cfg, attempt + 1, to, body))
  {
    var a := Call(cfg, id, o, RecordingError(attempt, to, body, error, status), RecordAttempt(id, "", status, true));
    if !a.ok { return true; }
    if !ShouldRetry(Some(error), status) {
      a := Call(cfg, id, o, GivingUp("twilio_non_retryable"), Mark(id, Failed, "twilio_non_retryable"));
      return true;
    }
    a := Call(cfg, id, o, Napping(attempt, Backoff(attempt), to, body), Sleep(Backoff(attempt)));
    return false;
  }

  /** The part of one attempt after a token is held: send, record, and decide.
      `over` says whether the run returns `ok` or goes on to its next attempt. */
  method SendOnce(cfg: Config, id: MessageId, o: Outside<Question, Answer>, attempt: nat, to: string, body: string)
    returns (over: bool, ok: bool)
    requires At(cfg, id, o, Calling(attempt, to, body))
    modifies o
    ensures At(cfg, id, o, if over then Done(ok) else StartAttempt(cfg, attempt + 1, to, body))
  {
    var a := Call(cfg, id, o, Calling(attempt, to, body), Send(to, body));
    match a.call
    case BreakerOpen => return true, false;
    case Accepted(sid, status) =>
      a := Call(cfg, id, o, RecordingOk(sid, status), RecordAttempt(id, sid, status, false));
      if !a.ok { return true, false; }
      a := Call(cfg, id, o, Finishing(sid), SetDetails(id, "twilio", sid, Submitted));
      return true, a.ok;
    case CallFailed(error, status) =>
      over := AfterFailure(cfg, id, o, attempt, to, body, error, status);
      ok := false;
  }

  /** The loop of at most three attempts, after a successful claim. */
  method SendWithRetries(cfg: Config, id: MessageId, o: Outside<Question, Answer>, to: string, body: string) returns (ok: bool)
    requires At(cfg, id, o, StartAttempt(cfg, 0, to, body))
    modifies o
    ensures At(cfg, id, o, Done(ok))
  {
    var a;
    var attempt := 0;
    while attempt < 3
      invariant 0 <= attempt <= 3
      invariant At(cfg, id, o, StartAttempt(cfg, attempt, to, body))
    {
      if cfg.hasLimiter {
        a := Call(cfg, id, o, Limiting(attempt, to, body), WaitForToken);
        if !a.ok {
          a := Call(cfg, id, o, Napping(attempt, 200, to, body), Sleep(200));
          attempt := attempt + 1;
          continue;
        }
      }
      var over, result := SendOnce(cfg, id, o, attempt, to, body);
      if over { return result; }
      attempt := attempt + 1;
    }
    a := Call(cfg, id, o, GivingUp("twilio_retry_exhausted"), Mark(id, Failed, "twilio_retry_exhausted"));
    return false;
  }

  /** One job.  The run asks exactly what the machine asks, in order, until the machine stops. */
  method Process(cfg: Config, id: MessageId, o: Outside<Question, Answer>) returns (ok: bool)
    requires o.asked == []
    modifies o
    ensures At(cfg, id, o, Done(ok))
  {
    var a := Call(cfg, id, o, Reading, GetMessage(id));
    if !a.ok { return false; }
    var msg := a.message;
    if Skips(msg) { return true; }

    a := Call(cfg, id, o, Claiming(msg), Claim(id, StaleAfter(cfg)));
    if !a.ok { return false; }
    if !a.claimed { return true; }

    if msg.template !in cfg.templates || cfg.templates[msg.template] == "" {
      a := Call(cfg, id, o, NoTemplate, Mark(id, Failed, "template_not_found"));
      return false;
    }
    var body := RenderTemplate(cfg.templates[msg.template], msg.vars);
    ok := SendWithRetries(cfg, id, o, msg.to, body);
  }

  // ----- what the end of a run means

  /** The last step `j` of a run that is over. */
  lemma {:induction false} LastStep(cfg: Config, reply: nat -> Answer, n: nat) returns (j: nat)
    requires After(cfg, reply, n).Done?
    ensures j < n && !After(cfg, reply, j).Done? && After(cfg, reply, n) == Next(cfg, After(cfg, reply, j), reply(j))
  {
    if After(cfg, reply, n - 1).Done? { j := LastStep(cfg, reply, n - 1); } else { j := n - 1; }
  }

  lemma {:induction false} EarlyPcs(cfg: Config, reply: nat -> Answer, n: nat)
    ensures After(cfg, reply, n).Reading? ==> n == 0
    ensures After(cfg, reply, n).Claiming? ==> n == 1 && After(cfg, reply, n).message == reply(0).message && reply(0).ok
    ensures !After(cfg, reply, n).Reading? && !After(cfg, reply, n).Claiming? && !After(cfg, reply, n).Done? ==> n >= 2 && reply(1).ok && reply(1).claimed
  {
    if n > 0 { EarlyPcs(cfg, reply, n - 1); }
  }

  predicate Attempting(pc: Pc) {
    pc.Limiting? || pc.Calling? || pc.RecordingError? || pc.Napping?
  }

  /** Whatever happens, only attempts 0, 1 and 2 are made, all to the number of the message that was
      read and with its template rendered. */
  lemma {:induction false} SendsTheRenderedBody(cfg: Config, reply: nat -> Answer, n: nat)
    requires Attempting(After(cfg, reply, n))
    ensures var m, pc := reply(0).message, After(cfg, reply, n);
            && pc.attempt < 3 && pc.to == m.to && m.template in cfg.templates && pc.body == Render(cfg.templates[m.template], m.vars)
            && cfg.templates[m.template] != ""
  {
    if Attempting(After(cfg, reply, n - 1)) { SendsTheRenderedBody(cfg, reply, n - 1); } else { EarlyPcs(cfg, reply, n - 1); }
  }

  /** With a limiter every send holds a token; and a row is given up only after a third attempt that
      slept, or after a recorded failure that was no timeout. */
  lemma SendsAndGivesUpForCause(cfg: Config, reply: nat -> Answer, n: nat)
    ensures After(cfg, reply, n).Calling? && cfg.hasLimiter ==> n > 0 && After(cfg, reply, n - 1).Limiting? && reply(n - 1).ok
    ensures var pc := After(cfg, reply, n);
            pc.GivingUp? ==>
              && n > 0
              && var before := After(cfg, reply, n - 1);
              || (pc.reason == "twilio_retry_exhausted" && before.Napping? && before.attempt == 2)
              || (pc.reason == "twilio_non_retryable" && before.RecordingError? && !before.error.TimedOut? && reply(n - 1).ok)
  {
    if n > 0 && Attempting(After(cfg, reply, n - 1)) { SendsTheRenderedBody(cfg, reply, n - 1); }
  }

  /** A send was answered 2xx, and recording it and writing the provider's id both reported success. */
  ghost predicate Confirmed(cfg: Config, reply: nat -> Answer, j: nat) {
    After(cfg, reply, j).Calling? && reply(j).call.Accepted? && reply(j + 1).ok && reply(j + 2).ok
  }

  /** A provider id is written only after the attempt has been recorded, and is the one of its 2xx. */
  lemma WritesTheProvidersId(cfg: Config, reply: nat -> Answer, n: nat)
    requires After(cfg, reply, n).Finishing?
    ensures n >= 2 && After(cfg, reply, n - 2).Calling? && reply(n - 1).ok
    ensures reply(n - 2).call.Accepted? && reply(n - 2).call.sid == After(cfg, reply, n).sid
  {
    assert n > 0 && !After(cfg, reply, n - 1).Done?;
    assert After(cfg, reply, n - 1).RecordingOk?;
  }

  /** `Process` returns nil, so that the job is deleted, only when the row read needed nothing more,
      or the claim was refused, or a send was answered 2xx and both its writes reported success;
      after a successful claim, only in the last case. */
  lemma NilMeansSettledOrRefused(cfg: Config, reply: nat -> Answer, n: nat)
    requires After(cfg, reply, n) == Done(true)
    ensures || (reply(0).ok && Skips(reply(0).message))
            || (reply(1).ok && !reply(1).claimed)
            || exists j: nat | j + 2 < n :: Confirmed(cfg, reply, j)
  {
    var j := LastStep(cfg, reply, n);
    LastPc(cfg, reply, j);
    if After(cfg, reply, j).Finishing? {
      WritesTheProvidersId(cfg, reply, j);
      assert Confirmed(cfg, reply, j - 2);
    } else {
      EarlyPcs(cfg, reply, j);
    }
  }

  lemma LastPc(cfg: Config, reply: nat -> Answer, j: nat)
    requires !After(cfg, reply, j).Done? && Next(cfg, After(cfg, reply, j), reply(j)) == Done(true)
    ensures var pc := After(cfg, reply, j);
            || (pc.Reading? && reply(j).ok && Skips(reply(j).message))
            || (pc.Claiming? && reply(j).ok && !reply(j).claimed)
            || (pc.Finishing? && reply(j).ok)
  {
  }

  // ----- the HTTP status of a failed call

  predicate SameCall(c: CallResult, d: CallResult) {
    match c
    case CallFailed(e, _) => d.CallFailed? && d.error == e
    case _ => d == c
  }

  /** Equal but for the HTTP status of a failed call. */
  predicate SameButStatus(a: Answer, b: Answer) {
    a.ok == b.ok && a.message == b.message && a.claimed == b.claimed && SameCall(a.call, b.call)
  }

  predicate SamePlace(p: Pc, q: Pc) {
    match p
    case RecordingError(n, to, body, e, _) => q.RecordingError? && q.attempt == n && q.to == to && q.body == body && q.error == e
    case _ => q == p
  }

  /** The status of a failed call never decides anything: runs whose answers differ in it alone are
      always at the same place.  So the branches of `ShouldRetry` on the status are never reached. */
  lemma {:induction false} StatusNeverMatters(cfg: Config, reply: nat -> Answer, reply': nat -> Answer, n: nat)
    requires forall i: nat :: SameButStatus(reply(i), reply'(i))
    ensures SamePlace(After(cfg, reply, n), After(cfg, reply', n))
  {
    if n > 0 {
      StatusNeverMatters(cfg, reply, reply', n - 1);
      assert SameButStatus(reply(n - 1), reply'(n - 1));
    }
  }

  // ----- when a row ends as exhausted

  const EXHAUSTED := GivingUp("twilio_retry_exhausted")

  /** At some step the run marks its row as exhausted. */
  ghost predicate Exhausts(cfg: Config, reply: nat -> Answer) {
    exists n: nat :: After(cfg, reply, n) == EXHAUSTED
  }

  /** The attempt whose first answer is `i` gets no token. */
  predicate NoToken(cfg: Config, reply: nat -> Answer, i: nat) {
    cfg.hasLimiter && !reply(i).ok
  }

  /** The answer to the call of that attempt, if it gets a token. */
  function CallAt(cfg: Config, i: nat): nat {
    if cfg.hasLimiter then i + 1 else i
  }

  /** The attempt gets a token, its call times out and that is recorded. */
  predicate TimesOut(cfg: Config, reply: nat -> Answer, i: nat) {
    var j := CallAt(cfg, i);
    !NoToken(cfg, reply, i) && reply(j).call.CallFailed? && reply(j).call.error.TimedOut? && reply(j + 1).ok
  }

  /** Where the next attempt starts, if this one fails in one of these two ways. */
  function NextStart(cfg: Config, reply: nat -> Answer, i: nat): nat {
    if NoToken(cfg, reply, i) then i + 2 else CallAt(cfg, i) + 3
  }

  /** Every attempt from `k` on, starting with answer `i`, gets no token or times out. */
  predicate AllFail(cfg: Config, reply: nat -> Answer, i: nat, k: nat)
    decreases 3 - k
  {
    k >= 3 || ((NoToken(cfg, reply, i) || TimesOut(cfg, reply, i)) && AllFail(cfg, reply, NextStart(cfg, reply, i), k + 1))
  }

  predicate NoLongerExhausts(pc: Pc) {
    pc.RecordingOk? || pc.Finishing? || pc.Done? || pc.NoTemplate? || (pc.GivingUp? && pc != EXHAUSTED)
  }

  lemma {:induction false} StaysUnexhausted(cfg: Config, reply: nat -> Answer, i: nat, n: nat)
    requires i <= n && NoLongerExhausts(After(cfg, reply, i))
    ensures NoLongerExhausts(After(cfg, reply, n))
  {
    if i < n { StaysUnexhausted(cfg, reply, i, n - 1); }
  }

  lemma OneStep(cfg: Config, reply: nat -> Answer, i: nat)
    requires !After(cfg, reply, i).Done?
    ensures After(cfg, reply, i + 1) == Next(cfg, After(cfg, reply, i), reply(i))
  {
  }

  lemma WithoutToken(cfg: Config, reply: nat -> Answer, i: nat, k: nat, to: string, body: string)
    requires k < 3 && After(cfg, reply, i) == StartAttempt(cfg, k, to, body) && NoToken(cfg, reply, i)
    ensures After(cfg, reply, i + 1) == Napping(k, 200, to, body)
    ensures After(cfg, reply, i + 2) == StartAttempt(cfg, k + 1, to, body)
  {
    OneStep(cfg, reply, i);
    OneStep(cfg, reply, i + 1);
  }

  lemma WithToken(cfg: Config, reply: nat -> Answer, i: nat, k: nat, to: string, body: string)
    requires k < 3 && After(cfg, reply, i) == StartAttempt(cfg, k, to, body) && !NoToken(cfg, reply, i)
    ensures After(cfg, reply, CallAt(cfg, i)) == Calling(k, to, body)
  {
    if cfg.hasLimiter { OneStep(cfg, reply, i); }
  }

  lemma CallTimesOut(cfg: Config, reply: nat -> Answer, j: nat, k: nat, to: string, body: string)
    requires After(cfg, reply, j) == Calling(k, to, body)
    requires reply(j).call.CallFailed? && reply(j).call.error.TimedOut? && reply(j + 1).ok
    ensures After(cfg, reply, j + 1).RecordingError? && After(cfg, reply, j + 2) == Napping(k, Backoff(k), to, body)
  {
    OneStep(cfg, reply, j);
    OneStep(cfg, reply, j + 1);
  }

  lemma AfterTimeout(cfg: Config, reply: nat -> Answer, j: nat, k: nat, to: string, body: string)
    requires After(cfg, reply, j) == Calling(k, to, body)
    requires reply(j).call.CallFailed? && reply(j).call.error.TimedOut? && reply(j + 1).ok
    ensures After(cfg, reply, j + 3) == StartAttempt(cfg, k + 1, to, body)
  {
    CallTimesOut(cfg, reply, j, k, to, body);
    OneStep(cfg, reply, j + 2);
  }

  lemma DuringTimeout(cfg: Config, reply: nat -> Answer, j: nat, k: nat, to: string, body: string, n: nat)
    requires After(cfg, reply, j) == Calling(k, to, body) && j <= n < j + 3
    requires reply(j).call.CallFailed? && reply(j).call.error.TimedOut? && reply(j + 1).ok
    ensures After(cfg, reply, n) != EXHAUSTED
  {
    if n > j { CallTimesOut(cfg, reply, j, k, to, body); }
  }

  lemma CallEnds(cfg: Config, reply: nat -> Answer, j: nat, k: nat, to: string, body: string)
    requires After(cfg, reply, j) == Calling(k, to, body)
    requires !(reply(j).call.CallFailed? && reply(j).call.error.TimedOut? && reply(j + 1).ok)
    ensures After(cfg, reply, j + 1) != EXHAUSTED && NoLongerExhausts(After(cfg, reply, j + 2))
  {
    OneStep(cfg, reply, j);
    if reply(j).call.CallFailed? {
      OneStep(cfg, reply, j + 1);
    } else {
      StaysUnexhausted(cfg, reply, j + 1, j + 2);
    }
  }

  lemma IdleAttempt(cfg: Config, reply: nat -> Answer, i: nat, k: nat, to: string, body: string, n: nat)
    requires k < 3 && After(cfg, reply, i) == StartAttempt(cfg, k, to, body) && NoToken(cfg, reply, i)
    ensures After(cfg, reply, i + 2) == StartAttempt(cfg, k + 1, to, body)
    ensures i <= n < i + 2 ==> After(cfg, reply, n) != EXHAUSTED
  {
    WithoutToken(cfg, reply, i, k, to, body);
    assert i <= n < i + 2 ==> n == i || n == i + 1;
  }

  lemma CalledAttempt(cfg: Config, reply: nat -> Answer, i: nat, k: nat, to: string, body: string)
    requires k < 3 && After(cfg, reply, i) == StartAttempt(cfg, k, to, body) && TimesOut(cfg, reply, i)
    ensures After(cfg, reply, CallAt(cfg, i) + 3) == StartAttempt(cfg, k + 1, to, body)
  {
    var j := CallAt(cfg, i);
    assert After(cfg, reply, j) == Calling(k, to, body) by { WithToken(cfg, reply, i, k, to, body); }
    AfterTimeout(cfg, reply, j, k, to, body);
  }

  lemma DuringCalledAttempt(cfg: Config, reply: nat -> Answer, i: nat, k: nat, to: string, body: string, n: nat)
    requires k < 3 && After(cfg, reply, i) == StartAttempt(cfg, k, to, body) && TimesOut(cfg, reply, i)
    requires i <= n < CallAt(cfg, i) + 3
    ensures After(cfg, reply, n) != EXHAUSTED
  {
    if n > i || !cfg.hasLimiter {
      WithToken(cfg, reply, i, k, to, body);
      DuringTimeout(cfg, reply, CallAt(cfg, i), k, to, body, n);
    }
  }

  /** A failed attempt leads to the next one, and the row is not marked in between. */
  lemma NextAttempt(cfg: Config, reply: nat -> Answer, i: nat, k: nat, to: string, body: string, n: nat)
    requires k < 3 && After(cfg, reply, i) == StartAttempt(cfg, k, to, body) && (NoToken(cfg, reply, i) || TimesOut(cfg, reply, i))
    ensures After(cfg, reply, NextStart(cfg, reply, i)) == StartAttempt(cfg, k + 1, to, body)
    ensures i <= n < NextStart(cfg, reply, i) ==> After(cfg, reply, n) != EXHAUSTED
  {
    if NoToken(cfg, reply, i) {
      IdleAttempt(cfg, reply, i, k, to, body, n);
    } else {
      CalledAttempt(cfg, reply, i, k, to, body);
      if i <= n < NextStart(cfg, reply, i) { DuringCalledAttempt(cfg, reply, i, k, to, body, n); }
    }
  }

  /** If all attempts fail, the run comes to mark its row. */
  lemma {:induction false} FailingExhausts(cfg: Config, reply: nat -> Answer, i: nat, k: nat, to: string, body: string) returns (n: nat)
    requires k <= 3 && After(cfg, reply, i) == StartAttempt(cfg, k, to, body) && AllFail(cfg, reply, i, k)
    ensures After(cfg, reply, n) == EXHAUSTED
    decreases 3 - k
  {
    if k == 3 {
      n := i;
    } else {
      NextAttempt(cfg, reply, i, k, to, body, i);
      n := FailingExhausts(cfg, reply, NextStart(cfg, reply, i), k + 1, to, body);
    }
  }

  lemma LastCall(cfg: Config, reply: nat -> Answer, j: nat, k: nat, to: string, body: string, n: nat)
    requires After(cfg, reply, j) == Calling(k, to, body) && j <= n
    requires !(reply(j).call.CallFailed? && reply(j).call.error.TimedOut? && reply(j + 1).ok)
    ensures After(cfg, reply, n) != EXHAUSTED
  {
    CallEnds(cfg, reply, j, k, to, body);
    if j + 2 <= n { StaysUnexhausted(cfg, reply, j + 2, n); }
  }

  /** An attempt that is neither without token nor timed out is the last, and not for exhaustion. */
  lemma LastAttempt(cfg: Config, reply: nat -> Answer, i: nat, k: nat, to: string, body: string, n: nat)
    requires k < 3 && After(cfg, reply, i) == StartAttempt(cfg, k, to, body) && i <= n
    requires !NoToken(cfg, reply, i) && !TimesOut(cfg, reply, i)
    ensures After(cfg, reply, n) != EXHAUSTED
  {
    WithToken(cfg, reply, i, k, to, body);
    if CallAt(cfg, i) <= n { LastCall(cfg, reply, CallAt(cfg, i), k, to, body, n); }
  }

  /** If the run marks its row, all attempts have failed. */
  lemma {:induction false} ExhaustedMeansFailing(cfg: Config, reply: nat -> Answer, i: nat, k: nat, to: string, body: string, n: nat)
    requires k <= 3 && After(cfg, reply, i) == StartAttempt(cfg, k, to, body) && i <= n && After(cfg, reply, n) == EXHAUSTED
    ensures AllFail(cfg, reply, i, k)
    decreases 3 - k
  {
    if k < 3 {
      if NoToken(cfg, reply, i) || TimesOut(cfg, reply, i) {
        NextAttempt(cfg, reply, i, k, to, body, n);
        ExhaustedMeansFailing(cfg, reply, NextStart(cfg, reply, i), k + 1, to, body, n);
      } else {
        LastAttempt(cfg, reply, i, k, to, body, n);
      }
    }
  }

  /** The run gets as far as its first attempt. */
  predicate StartsSending(cfg: Config, reply: nat -> Answer) {
    && reply(0).ok && !Skips(reply(0).message) && reply(1).ok && reply(1).claimed
    && reply(0).message.template in cfg.templates && cfg.templates[reply(0).message.template] != ""
  }

  lemma FirstSteps(cfg: Config, reply: nat -> Answer)
    ensures After(cfg, reply, 0).Reading? && (After(cfg, reply, 1).Claiming? || After(cfg, reply, 1).Done?)
    ensures var m := reply(0).message;
            if StartsSending(cfg, reply) then After(cfg, reply, 2) == StartAttempt(cfg, 0, m.to, Render(cfg.templates[m.template], m.vars))
            else NoLongerExhausts(After(cfg, reply, 2))
  {
    assert After(cfg, reply, 0) == Reading;
    OneStep(cfg, reply, 0);
    if !After(cfg, reply, 1).Done? { OneStep(cfg, reply, 1); } else { StaysUnexhausted(cfg, reply, 1, 2); }
  }

  /** A run marks its row `failed` as exhausted if and only if it claims the message, has its template,
      and each of three attempts gets no token or times out; no send need have been tried. */
  lemma ExhaustedIff(cfg: Config, reply: nat -> Answer)
    ensures Exhausts(cfg, reply) <==> StartsSending(cfg, reply) && AllFail(cfg, reply, 2, 0)
  {
    FirstSteps(cfg, reply);
    var m := reply(0).message;
    if StartsSending(cfg, reply) && AllFail(cfg, reply, 2, 0) {
      var n := FailingExhausts(cfg, reply, 2, 0, m.to, Render(cfg.templates[m.template], m.vars));
    }
    if Exhausts(cfg, reply) {
      var n: nat :| After(cfg, reply, n) == EXHAUSTED;
      if StartsSending(cfg, reply) {
        ExhaustedMeansFailing(cfg, reply, 2, 0, m.to, Render(cfg.templates[m.template], m.vars), n);
      } else if n >= 2 {
        StaysUnexhausted(cfg, reply, 2, n);
      }
    }
  }

  // ----- what is asked, in the questions' own words

  /** How often the run has slept. */
  function Naps(log: seq<Question>): nat {
    if log == [] then 0 else Naps(log[..|log| - 1]) + (if log[|log| - 1].Sleep? then 1 else 0)
  }

  /** Question `i` of the log answers the source's description: whom it concerns, what it carries, and
      which answer it follows. */
  ghost predicate Justified(cfg: Config, id: MessageId, reply: nat -> Answer, log: seq<Question>, i: nat)
    requires i < |log|
  {
    var m := reply(0).message;
    match log[i]
    case GetMessage(x) => x == id && i == 0
    case Claim(x, staleAfter) =>
      && x == id && i == 1 && reply(0).ok
      && staleAfter == (if cfg.claimStaleAfter <= 0 then 120_000 else cfg.claimStaleAfter)
      && m.state != Suppressed && m.state != Delivered && m.state != Failed && (m.state == Submitted ==> m.sid == "")
    case WaitForToken => cfg.hasLimiter && BeginsAttempt(cfg, m, log, i)
    case Send(to, body) =>
      && (if cfg.hasLimiter then i > 2 && log[i - 1].WaitForToken? && reply(i - 1).ok else BeginsAttempt(cfg, m, log, i))
      && to == m.to && m.template in cfg.templates && body == Render(cfg.templates[m.template], m.vars)
    case RecordAttempt(x, sid, status, failed) =>
      && x == id && i > 0 && log[i - 1].Send? && !reply(i - 1).call.BreakerOpen? && status == reply(i - 1).call.status
      && (if reply(i - 1).call.Accepted? then !failed && sid == reply(i - 1).call.sid else failed && sid == "")
    case SetDetails(x, provider, sid, state) =>
      && x == id && provider == "twilio" && state == Submitted && i >= 2 && log[i - 2].Send? && log[i - 1].RecordAttempt? && reply(i - 1).ok
      && reply(i - 2).call.Accepted? && sid == reply(i - 2).call.sid
    case Mark(x, state, reason) =>
      && x == id && state == Failed && i >= 2
      && (|| (reason == "template_not_found" && i == 2 && (m.template in cfg.templates ==> cfg.templates[m.template] == ""))
          || (reason == "twilio_retry_exhausted" && log[i - 1].Sleep? && Naps(log[..i]) == 3)
          || (reason == "twilio_non_retryable" && Unanswered(reply, log, i) && !reply(i - 2).call.error.TimedOut?))
    case Sleep(ms) =>
      && i >= 2 && Naps(log[..i]) < 3
      && (|| (log[i - 1].WaitForToken? && !reply(i - 1).ok && ms == 200)
          || (Unanswered(reply, log, i) && reply(i - 2).call.error.TimedOut? && ms == [200, 600, 1400][Naps(log[..i])]))
  }

  /** Question `i` is the first of one of three attempts. */
  predicate BeginsAttempt(cfg: Config, m: Message, log: seq<Question>, i: nat)
    requires i < |log|
  {
    && i >= 2 && (log[i - 1].Claim? || log[i - 1].Sleep?) && Naps(log[..i]) < 3
    && m.template in cfg.templates && cfg.templates[m.template] != ""
  }

  /** The two questions before `i` are a send that failed and its record. */
  ghost predicate Unanswered(reply: nat -> Answer, log: seq<Question>, i: nat) {
    && 2 <= i <= |log| && log[i - 2].Send? && reply(i - 2).call.CallFailed? && log[i - 1].RecordAttempt? && reply(i - 1).ok
  }

  lemma {:induction false} TraceLength(cfg: Config, id: MessageId, reply: nat -> Answer, n: nat)
    ensures |Trace(cfg, id, reply, n)| <= n && (!After(cfg, reply, n).Done? ==> |Trace(cfg, id, reply, n)| == n)
  {
    if n > 0 { TraceLength(cfg, id, reply, n - 1); }
  }

  lemma TraceMore(cfg: Config, id: MessageId, reply: nat -> Answer, n: nat)
    requires n > 0
    ensures var before, pc := Trace(cfg, id, reply, n - 1), After(cfg, reply, n - 1);
            Trace(cfg, id, reply, n) == if pc.Done? then before else before + [QuestionOf(cfg, id, pc)]
  {
  }

  lemma LastOfTrace(cfg: Config, id: MessageId, reply: nat -> Answer, n: nat, i: nat)
    requires n > 0 && i < |Trace(cfg, id, reply, n)|
    ensures i < |Trace(cfg, id, reply, n - 1)| ==> Trace(cfg, id, reply, n)[i] == Trace(cfg, id, reply, n - 1)[i]
    ensures i >= |Trace(cfg, id, reply, n - 1)| ==>
              i == n - 1 && !After(cfg, reply, i).Done? && Trace(cfg, id, reply, n)[i] == QuestionOf(cfg, id, After(cfg, reply, i))
  {
    TraceMore(cfg, id, reply, n);
    TraceLength(cfg, id, reply, n - 1);
  }

  lemma {:induction false} TraceAt(cfg: Config, id: MessageId, reply: nat -> Answer, n: nat, i: nat)
    requires i < |Trace(cfg, id, reply, n)|
    ensures i < n && !After(cfg, reply, i).Done? && Trace(cfg, id, reply, n)[i] == QuestionOf(cfg, id, After(cfg, reply, i))
  {
    if n > 0 {
      LastOfTrace(cfg, id, reply, n, i);
      if i < |Trace(cfg, id, reply, n - 1)| { TraceAt(cfg, id, reply, n - 1, i); }
    }
  }

  lemma StepBefore(cfg: Config, reply: nat -> Answer, i: nat)
    requires i > 0 && !After(cfg, reply, i).Done?
    ensures !After(cfg, reply, i - 1).Done? && After(cfg, reply, i) == Next(cfg, After(cfg, reply, i - 1), reply(i - 1))
  {
  }

  /** What is known of a run that stands at `pc` after `i` answers. */
  ghost predicate Known(cfg: Config, reply: nat -> Answer, i: nat, pc: Pc) {
    var m := reply(0).message;
    && (pc.Reading? ==> i == 0)
    && (pc.Claiming? ==> i == 1 && reply(0).ok && pc.message == m)
    && (!pc.Reading? && !pc.Claiming? ==> i >= 2)
    && (Attempting(pc) ==> pc.attempt < 3 && pc.to == m.to && m.template in cfg.templates && pc.body == Render(cfg.templates[m.template], m.vars)
                           && cfg.templates[m.template] != "")
  }

  /** The log of a run and the places it passed, as sequences: place `i` asks question `i`, and its
      answer leads to place `i + 1`. */
  ghost predicate Place(cfg: Config, id: MessageId, reply: nat -> Answer, pcs: seq<Pc>, log: seq<Question>, i: nat)
    requires i < |pcs| == |log|
  {
    && !pcs[i].Done? && Known(cfg, reply, i, pcs[i]) && log[i] == QuestionOf(cfg, id, pcs[i])
    && (i > 0 ==> !pcs[i - 1].Done? && pcs[i] == Next(cfg, pcs[i - 1], reply(i - 1)))
    && (i == 0 ==> pcs[i].Reading?)
  }

  lemma PlaceOfRun(cfg: Config, id: MessageId, reply: nat -> Answer, n: nat, pcs: seq<Pc>, i: nat)
    requires i < |Trace(cfg, id, reply, n)| == |pcs|
    requires pcs[i] == After(cfg, reply, i) && (i > 0 ==> pcs[i - 1] == After(cfg, reply, i - 1))
    ensures Place(cfg, id, reply, pcs, Trace(cfg, id, reply, n), i)
  {
    TraceAt(cfg, id, reply, n, i);
    EarlyPcs(cfg, reply, i);
    if Attempting(pcs[i]) { SendsTheRenderedBody(cfg, reply, i); }
    if i > 0 { StepBefore(cfg, reply, i); } else { assert After(cfg, reply, 0) == Reading; }
  }

  /** The number of the attempt a run stands at, with 3 for giving up after the last. */
  function AttemptOf(pc: Pc): nat {
    if Attempting(pc) then pc.attempt else if pc == EXHAUSTED then 3 else 0
  }

  lemma NapsOfOneMore(log: seq<Question>, q: Question)
    ensures Naps(log + [q]) == Naps(log) + (if q.Sleep? then 1 else 0)
  {
    assert (log + [q])[..|log|] == log;
  }

  /** One more question, asked at `p` and leading to `q`, and the number of the attempt. */
  lemma NapsStep(cfg: Config, id: MessageId, log: seq<Question>, p: Pc, a: Answer)
    requires !p.Done? && (Attempting(p) ==> p.attempt < 3) && Naps(log) == AttemptOf(p)
    requires Attempting(Next(cfg, p, a)) || Next(cfg, p, a) == EXHAUSTED
    ensures Naps(log + [QuestionOf(cfg, id, p)]) == AttemptOf(Next(cfg, p, a))
  {
    NapsOfOneMore(log, QuestionOf(cfg, id, p));
  }

  lemma WhereFrom(cfg: Config, p: Pc, a: Answer)
    requires !p.Done? && (Attempting(Next(cfg, p, a)) || Next(cfg, p, a) == EXHAUSTED)
    ensures p.Claiming? || Attempting(p)
  {
  }

  ghost predicate RunLog(cfg: Config, id: MessageId, reply: nat -> Answer, pcs: seq<Pc>, log: seq<Question>) {
    |pcs| == |log| && forall i: nat {:trigger Place(cfg, id, reply, pcs, log, i)} | i < |pcs| :: Place(cfg, id, reply, pcs, log, i)
  }

  lemma NoNapsYet(log: seq<Question>)
    requires log != [] && !log[0].Sleep?
    ensures Naps(log[..1]) == 0
  {
    NapsOfOneMore([], log[0]);
    assert log[..1] == [] + [log[0]];
  }

  lemma NapsNext(cfg: Config, id: MessageId, log: seq<Question>, i: nat, p: Pc, a: Answer)
    requires 0 < i < |log| && !p.Done? && (Attempting(p) ==> p.attempt < 3) && log[i - 1] == QuestionOf(cfg, id, p)
    requires Naps(log[..i - 1]) == AttemptOf(p) && (Attempting(Next(cfg, p, a)) || Next(cfg, p, a) == EXHAUSTED)
    ensures Naps(log[..i]) == AttemptOf(Next(cfg, p, a))
  {
    NapsStep(cfg, id, log[..i - 1], p, a);
    assert log[..i] == log[..i - 1] + [log[i - 1]];
  }

  /** The sleeps so far number the attempt. */
  lemma {:induction false} NapsAreAttempts(cfg: Config, id: MessageId, reply: nat -> Answer, pcs: seq<Pc>, log: seq<Question>, i: nat)
    requires RunLog(cfg, id, reply, pcs, log) && i < |log| && (Attempting(pcs[i]) || pcs[i] == EXHAUSTED)
    ensures Naps(log[..i]) == AttemptOf(pcs[i])
  {
    assert Place(cfg, id, reply, pcs, log, i) && Place(cfg, id, reply, pcs, log, i - 1);
    var p := pcs[i - 1];
    WhereFrom(cfg, p, reply(i - 1));
    if p.Claiming? {
      assert Place(cfg, id, reply, pcs, log, 0);
      NoNapsYet(log);
    } else {
      NapsAreAttempts(cfg, id, reply, pcs, log, i - 1);
    }
    NapsNext(cfg, id, log, i, p, reply(i - 1));
  }

  // ----- how the machine comes to each question

  lemma ToRecord(cfg: Config, p: Pc, a: Answer)
    requires !p.Done?
    ensures var q := Next(cfg, p, a);
            && (q.RecordingOk? ==> p.Calling? && a.call == Accepted(q.sid, q.status))
            && (q.RecordingError? ==> p.Calling? && a.call == CallFailed(q.error, q.status))
            && (q.Finishing? ==> p.RecordingOk? && p.sid == q.sid && a.ok)
            && (q.Claiming? ==> p.Reading? && a.ok && a.message == q.message && !Skips(a.message))
  {
  }

  lemma ToWait(cfg: Config, p: Pc, a: Answer)
    requires !p.Done?
    ensures var q := Next(cfg, p, a);
            && (q.Limiting? ==> cfg.hasLimiter && (p.Claiming? || p.Napping?))
            && (q.Calling? ==> (p.Limiting? && a.ok) || (!cfg.hasLimiter && (p.Claiming? || p.Napping?)))
            && (q.NoTemplate? ==> p.Claiming? && (p.message.template in cfg.templates ==> cfg.templates[p.message.template] == ""))
            && (q.Napping? ==> || (p.Limiting? && !a.ok && q.ms == 200 && q.attempt == p.attempt)
                               || (p.RecordingError? && a.ok && p.error.TimedOut? && q.ms == Backoff(p.attempt) && q.attempt == p.attempt))
            && (q.GivingUp? ==> || (q == EXHAUSTED && p.Napping?)
                                || (q.reason == "twilio_non_retryable" && p.RecordingError? && a.ok && !p.error.TimedOut?))
  {
  }

  // ----- every question of a run

  lemma RecordIsJustified(cfg: Config, id: MessageId, reply: nat -> Answer, pcs: seq<Pc>, log: seq<Question>, i: nat)
    requires RunLog(cfg, id, reply, pcs, log) && i < |log| && (pcs[i].RecordingOk? || pcs[i].RecordingError?)
    ensures Justified(cfg, id, reply, log, i)
  {
    assert Place(cfg, id, reply, pcs, log, i) && Place(cfg, id, reply, pcs, log, i - 1);
    ToRecord(cfg, pcs[i - 1], reply(i - 1));
  }

  lemma FinishIsJustified(cfg: Config, id: MessageId, reply: nat -> Answer, pcs: seq<Pc>, log: seq<Question>, i: nat)
    requires RunLog(cfg, id, reply, pcs, log) && i < |log| && pcs[i].Finishing?
    ensures Justified(cfg, id, reply, log, i)
  {
    assert Place(cfg, id, reply, pcs, log, i) && Place(cfg, id, reply, pcs, log, i - 1) && Place(cfg, id, reply, pcs, log, i - 2);
    ToRecord(cfg, pcs[i - 1], reply(i - 1));
    ToRecord(cfg, pcs[i - 2], reply(i - 2));
  }

  /** A failed send and its record, seen from the question after them. */
  lemma FailureIsUnanswered(cfg: Config, id: MessageId, reply: nat -> Answer, pcs: seq<Pc>, log: seq<Question>, i: nat)
    requires RunLog(cfg, id, reply, pcs, log) && 0 < i < |log| && pcs[i - 1].RecordingError? && reply(i - 1).ok
    ensures Unanswered(reply, log, i) && reply(i - 2).call.error == pcs[i - 1].error
  {
    assert Place(cfg, id, reply, pcs, log, i - 1);
    assert Place(cfg, id, reply, pcs, log, i - 2);
    ToRecord(cfg, pcs[i - 2], reply(i - 2));
  }

  lemma SleepIsJustified(cfg: Config, id: MessageId, reply: nat -> Answer, pcs: seq<Pc>, log: seq<Question>, i: nat)
    requires RunLog(cfg, id, reply, pcs, log) && i < |log| && pcs[i].Napping?
    ensures Justified(cfg, id, reply, log, i)
  {
    assert Place(cfg, id, reply, pcs, log, i) && Place(cfg, id, reply, pcs, log, i - 1);
    NapsAreAttempts(cfg, id, reply, pcs, log, i);
    ToWait(cfg, pcs[i - 1], reply(i - 1));
    if pcs[i - 1].RecordingError? { FailureIsUnanswered(cfg, id, reply, pcs, log, i); }
  }

  lemma MarkIsJustified(cfg: Config, id: MessageId, reply: nat -> Answer, pcs: seq<Pc>, log: seq<Question>, i: nat)
    requires RunLog(cfg, id, reply, pcs, log) && i < |log| && (pcs[i].GivingUp? || pcs[i].NoTemplate?)
    ensures Justified(cfg, id, reply, log, i)
  {
    assert Place(cfg, id, reply, pcs, log, i) && Place(cfg, id, reply, pcs, log, i - 1);
    ToWait(cfg, pcs[i - 1], reply(i - 1));
    if pcs[i] == EXHAUSTED { NapsAreAttempts(cfg, id, reply, pcs, log, i); }
    if pcs[i - 1].RecordingError? { FailureIsUnanswered(cfg, id, reply, pcs, log, i); }
  }

  lemma AttemptIsJustified(cfg: Config, id: MessageId, reply: nat -> Answer, pcs: seq<Pc>, log: seq<Question>, i: nat)
    requires RunLog(cfg, id, reply, pcs, log) && i < |log| && (pcs[i].Limiting? || pcs[i].Calling?)
    ensures Justified(cfg, id, reply, log, i)
  {
    assert Place(cfg, id, reply, pcs, log, i) && Place(cfg, id, reply, pcs, log, i - 1);
    NapsAreAttempts(cfg, id, reply, pcs, log, i);
    ToWait(cfg, pcs[i - 1], reply(i - 1));
    if pcs[i - 1].Limiting? {
      assert Place(cfg, id, reply, pcs, log, i - 2);
      ToWait(cfg, pcs[i - 2], reply(i - 2));
    }
  }

  lemma OtherIsJustified(cfg: Config, id: MessageId, reply: nat -> Answer, pcs: seq<Pc>, log: seq<Question>, i: nat)
    requires RunLog(cfg, id, reply, pcs, log) && i < |log|
    requires pcs[i].Reading? || pcs[i].Claiming? || pcs[i].Done?
    ensures Justified(cfg, id, reply, log, i)
  {
    assert Place(cfg, id, reply, pcs, log, i);
    if i > 0 {
      assert Place(cfg, id, reply, pcs, log, i - 1);
      ToRecord(cfg, pcs[i - 1], reply(i - 1));
      ToWait(cfg, pcs[i - 1], reply(i - 1));
    }
  }

  /** Every question of every run of `Process`: a send goes to the number of the message that was read,
      with its template rendered; a record carries the id, status and failure of the call before it; the
      provider's id is that of the recorded 2xx; each mark has its reason and each sleep its length. */
  lemma QuestionsAreJustified(cfg: Config, id: MessageId, reply: nat -> Answer, n: nat, i: nat)
    requires i < |Trace(cfg, id, reply, n)|
    ensures Justified(cfg, id, reply, Trace(cfg, id, reply, n), i)
  {
    var pcs := Places(cfg, id, reply, n);
    AllAreJustified(cfg, id, reply, pcs, Trace(cfg, id, reply, n), i);
  }

  lemma Places(cfg: Config, id: MessageId, reply: nat -> Answer, n: nat) returns (pcs: seq<Pc>)
    ensures RunLog(cfg, id, reply, pcs, Trace(cfg, id, reply, n))
  {
    var log := Trace(cfg, id, reply, n);
    pcs := seq(|log|, k requires k >= 0 => After(cfg, reply, k));
    forall k: nat | k < |pcs| ensures Place(cfg, id, reply, pcs, log, k) {
      PlaceOfRun(cfg, id, reply, n, pcs, k);
    }
  }

  lemma AllAreJustified(cfg: Config, id: MessageId, reply: nat -> Answer, pcs: seq<Pc>, log: seq<Question>, i: nat)
    requires RunLog(cfg, id, reply, pcs, log) && i < |log|
    ensures Justified(cfg, id, reply, log, i)
  {
    match pcs[i]
    case RecordingOk(_, _) => RecordIsJustified(cfg, id, reply, pcs, log, i);
    case RecordingError(_, _, _, _, _) => RecordIsJustified(cfg, id, reply, pcs, log, i);
    case Finishing(_) => FinishIsJustified(cfg, id, reply, pcs, log, i);
    case Napping(_, _, _, _) => SleepIsJustified(cfg, id, reply, pcs, log, i);
    case Limiting(_, _, _) => AttemptIsJustified(cfg, id, reply, pcs, log, i);
    case Calling(_, _, _) => AttemptIsJustified(cfg, id, reply, pcs, log, i);
    case GivingUp(_) => MarkIsJustified(cfg, id, reply, pcs, log, i);
    case NoTemplate => MarkIsJustified(cfg, id, reply, pcs, log, i);
    case _ => OtherIsJustified(cfg, id, reply, pcs, log, i);
  }

  // ----- and where a run ends

  /** Answer `a` to question `q` ends a run, which then returns nil if `ok`. */
  predicate Ends(q: Question, a: Answer, ok: bool) {
    match q
    case GetMessage(_) =>
      if !a.ok then !ok
      else ok && (a.message.state in {Suppressed, Delivered, Failed} || (a.message.state == Submitted && a.message.sid != ""))
    case Claim(_, _) => if a.ok then ok && !a.claimed else !ok
    case WaitForToken => false
    case Send(_, _) => !ok && a.call.BreakerOpen?
    case RecordAttempt(_, _, _, _) => !ok && !a.ok
    case SetDetails(_, _, _, _) => ok == a.ok
    case Mark(_, _, _) => !ok
    case Sleep(_) => false
  }

  lemma EndsThere(cfg: Config, id: MessageId, pc: Pc, a: Answer)
    requires !pc.Done? && Next(cfg, pc, a).Done?
    ensures Ends(QuestionOf(cfg, id, pc), a, Next(cfg, pc, a).ok)
  {
  }

  lemma {:induction false} TraceStops(cfg: Config, id: MessageId, reply: nat -> Answer, i: nat, n: nat)
    requires i <= n && After(cfg, reply, i).Done?
    ensures After(cfg, reply, n) == After(cfg, reply, i) && Trace(cfg, id, reply, n) == Trace(cfg, id, reply, i)
  {
    if i < n { TraceStops(cfg, id, reply, i, n - 1); }
  }

  /** The last step `j` of a run that is over asked the last question. */
  lemma LastAsked(cfg: Config, id: MessageId, reply: nat -> Answer, n: nat) returns (j: nat, pc: Pc)
    requires After(cfg, reply, n).Done?
    ensures !pc.Done? && After(cfg, reply, n) == Next(cfg, pc, reply(j))
    ensures |Trace(cfg, id, reply, n)| == j + 1 && Trace(cfg, id, reply, n)[j] == QuestionOf(cfg, id, pc)
  {
    j := LastStep(cfg, reply, n);
    pc := After(cfg, reply, j);
    TraceLength(cfg, id, reply, j);
    TraceMore(cfg, id, reply, j + 1);
    OneStep(cfg, reply, j);
    TraceStops(cfg, id, reply, j + 1, n);
  }

  /** A run ends with the answer to its last question, and only with an answer that ends it: nil for a
      message that needs nothing, a refused claim or a written 2xx, an error for everything else.
      Together with what justifies each question this leaves the run no choice. */
  lemma EndsForCause(cfg: Config, id: MessageId, reply: nat -> Answer, n: nat)
    requires After(cfg, reply, n).Done?
    ensures var log := Trace(cfg, id, reply, n);
            log != [] && Ends(log[|log| - 1], reply(|log| - 1), After(cfg, reply, n).ok)
  {
    var j, pc := LastAsked(cfg, id, reply, n);
    EndsThere(cfg, id, pc, reply(j));
  }
}
