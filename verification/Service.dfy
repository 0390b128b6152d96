/** The API side: `CreateAndEnqueueSMS` creates a message row, passes it through
    suppression, consent and the daily cap, and enqueues one job for it. */
module Service {
  import opened Boundary
  import opened Tables
  import opened Text

  datatype Request = Request(tenant: string, key: string, to: string, template: string, vars: Vars, campaign: string)

  /** Why a message that was created got no job. */
  datatype Reason = OnSuppressionList | NotOptedIn | CapExceeded | EnqueueFailed

  datatype Question =
    | Find(tenant: string, key: string)
    | Insert(id: MessageId, row: Row)
    | IsSuppressed(tenant: string, phone: string)
    | IsOptedIn(tenant: string, phone: string)
    | IncrementCap(bucket: Bucket, maxPerDay: int)
    | Enqueue(id: MessageId, request: Request)
    | Mark(id: MessageId, state: State, reason: string, now: int)

  /** `ok` is "no error", `found` what the idempotency lookup saw, `yes` a verdict. */
  datatype Answer = Answer(ok: bool, found: Option<(MessageId, State)>, yes: bool)

  datatype Reply =
    | Existing(id: MessageId, state: State)
    | Created(id: MessageId)
    | Rejected(id: MessageId)
    | Error

  datatype Pc =
    | Finding
    | Inserting
    | AskingSuppression
    | AskingConsent
    | Charging
    | Enqueueing
    | Marking(reason: Reason)
    | Done(reply: Reply)

  function DropBlanks(s: string): string {
    if s == "" then "" else (if s[0] == ' ' then "" else [s[0]]) + DropBlanks(s[1..])
  }

  function NormalizePhone(p: string): string {
    DropBlanks(TrimSpace(p))
  }

  function Normalized(r: Request): Request {
    r.(to := NormalizePhone(r.to))
  }

  function BucketOf(r: Request, now: int): Bucket {
    Bucket(r.tenant, r.to, DayOf(now))
  }

  function NewRow(r: Request, now: int): Row {
    Row(r.tenant, r.key, r.to, r.template, r.vars, NullIfEmpty(r.campaign), Queued, None, None, None, now, now)
  }

  function ReasonState(r: Reason): State {
    if r.EnqueueFailed? then Failed else Suppressed
  }

  function ReasonText(r: Reason): string {
    match r
    case OnSuppressionList => "suppressed"
    case NotOptedIn => "not_opted_in"
    case CapExceeded => "cap_exceeded"
    case EnqueueFailed => "enqueue_failed"
  }

  /** `r` is the request with its phone number already normalized. */
  function QuestionOf(r: Request, id: MessageId, now: int, maxPerDay: int, pc: Pc): Question
    requires !pc.Done?
  {
    match pc
    case Finding => Find(r.tenant, r.key)
    case Inserting => Insert(id, NewRow(r, now))
    case AskingSuppression => IsSuppressed(r.tenant, r.to)
    case AskingConsent => IsOptedIn(r.tenant, r.to)
    case Charging => IncrementCap(BucketOf(r, now), maxPerDay)
    case Enqueueing => Enqueue(id, r)
    case Marking(reason) => Mark(id, ReasonState(reason), ReasonText(reason), now)
  }

  function Next(id: MessageId, pc: Pc, a: Answer): Pc
    requires !pc.Done?
  {
    match pc
    case Finding => if !a.ok then Done(Error) else if a.found.Some? then Done(Existing(a.found.value.0, a.found.value.1)) else Inserting
    case Inserting => if !a.ok then Done(Error) else AskingSuppression
    case AskingSuppression => if !a.ok then Done(Error) else if a.yes then Marking(OnSuppressionList) else AskingConsent
    case AskingConsent => if !a.ok then Done(Error) else if a.yes then Charging else Marking(NotOptedIn)
    case Charging => if !a.ok then Done(Error) else if a.yes then Enqueueing else Marking(CapExceeded)
    case Enqueueing => if a.ok then Done(Created(id)) else Marking(EnqueueFailed)
    case Marking(reason) =>
      // Only a failed "suppressed" mark is reported; the other marks are best effort.
      if reason.EnqueueFailed? || (reason.OnSuppressionList? && !a.ok) then Done(Error) else Done(Rejected(id))
  }

  ghost function After(id: MessageId, reply: nat -> Answer, n: nat): Pc {
    if n == 0 then Finding
    else if After(id, reply, n - 1).Done? then After(id, reply, n - 1)
    else Next(id, After(id, reply, n - 1), reply(n - 1))
  }

  ghost function Trace(r: Request, id: MessageId, now: int, maxPerDay: int, reply: nat -> Answer, n: nat): seq<Question> {
    if n == 0 then []
    else if After(id, reply, n - 1).Done? then Trace(r, id, now, maxPerDay, reply, n - 1)
    else Trace(r, id, now, maxPerDay, reply, n - 1) + [QuestionOf(r, id, now, maxPerDay, After(id, reply, n - 1))]
  }

  /** One API call in progress, with what it needs to know. */
  datatype Call = Call(request: Request, id: MessageId, now: int, maxPerDay: int)

  ghost predicate At(c: Call, o: Outside<Question, Answer>, pc: Pc)
    reads o
  {
    && o.asked == Trace(c.request, c.id, c.now, c.maxPerDay, o.reply, |o.asked|)
    && After(c.id, o.reply, |o.asked|) == pc
  }

  method AskNext(c: Call, o: Outside<Question, Answer>, ghost pc: Pc, q: Question) returns (a: Answer)
    requires !pc.Done? && At(c, o, pc) && q == QuestionOf(c.request, c.id, c.now, c.maxPerDay, pc)
    modifies o
    ensures At(c, o, Next(c.id, pc, a))
  {
    a := o.Ask(q);
  }

  method CreateAndEnqueueSMS(req: Request, id: MessageId, now: int, maxPerDay: int, o: Outside<Question, Answer>) returns (reply: Reply)
    requires o.asked == []
    modifies o
    ensures At(Call(Normalized(req), id, now, maxPerDay), o, Done(reply))
  {
    var r := req.(to := NormalizePhone(req.to));
    var c := Call(r, id, now, maxPerDay);

    var a := AskNext(c, o, Finding, Find(r.tenant, r.key));
    if !a.ok { return Error; }
    if a.found.Some? { return Existing(a.found.value.0, a.found.value.1); }

    a := AskNext(c, o, Inserting, Insert(id, NewRow(r, now)));
    if !a.ok { return Error; }

    a := AskNext(c, o, AskingSuppression, IsSuppressed(r.tenant, r.to));
    if !a.ok { return Error; }
    if a.yes {
      a := AskNext(c, o, Marking(OnSuppressionList), Mark(id, Suppressed, "suppressed", now));
      if !a.ok { return Error; }
      return Rejected(id);
    }

    a := AskNext(c, o, AskingConsent, IsOptedIn(r.tenant, r.to));
    if !a.ok { return Error; }
    if !a.yes {
      a := AskNext(c, o, Marking(NotOptedIn), Mark(id, Suppressed, "not_opted_in", now));
      return Rejected(id);
    }

    reply := ChargeAndEnqueue(c, o);
  }

  /** The daily cap and the enqueue, the last two gates. */
  method ChargeAndEnqueue(c: Call, o: Outside<Question, Answer>) returns (reply: Reply)
    requires At(c, o, Charging)
    modifies o
    ensures At(c, o, Done(reply))
  {
    var a := AskNext(c, o, Charging, IncrementCap(BucketOf(c.request, c.now), c.maxPerDay));
    if !a.ok { return Error; }
    if !a.yes {
      a := AskNext(c, o, Marking(CapExceeded), Mark(c.id, Suppressed, "cap_exceeded", c.now));
      return Rejected(c.id);
    }
    a := AskNext(c, o, Enqueueing, Enqueue(c.id, c.request));
    if !a.ok {
      a := AskNext(c, o, Marking(EnqueueFailed), Mark(c.id, Failed, "enqueue_failed", c.now));
      return Error;
    }
    return Created(c.id);
  }

  // ----- what the reply means

  /** No earlier message has the key, the row is new, the number is not suppressed and has opted in. */
  predicate MayBeCharged(reply: nat -> Answer) {
    && reply(0).ok && reply(0).found.None? && reply(1).ok
    && reply(2).ok && !reply(2).yes && reply(3).ok && reply(3).yes
  }

  predicate PassesEveryGate(reply: nat -> Answer) {
    MayBeCharged(reply) && reply(4).ok && reply(4).yes && reply(5).ok
  }

  lemma FirstFour(id: MessageId, reply: nat -> Answer)
    ensures After(id, reply, 4).Charging? <==> MayBeCharged(reply)
    ensures var pc := After(id, reply, 4); pc.Charging? || pc == Marking(NotOptedIn) || (pc.Done? && pc != Done(Created(id)))
  {
    var one, two, three := After(id, reply, 1), After(id, reply, 2), After(id, reply, 3);
    assert After(id, reply, 0) == Finding && one == Next(id, After(id, reply, 0), reply(0));
    assert two == if one.Done? then one else Next(id, one, reply(1));
    assert three == if two.Done? then two else Next(id, two, reply(2));
  }

  lemma {:induction false} DoneStays(id: MessageId, reply: nat -> Answer, i: nat, n: nat)
    requires i <= n && After(id, reply, i).Done?
    ensures After(id, reply, n) == After(id, reply, i)
  {
    if i < n { DoneStays(id, reply, i, n - 1); }
  }

  /** A call is over after at most seven questions, and it answers "created" if and only if every
      gate let the message pass. */
  lemma CreatedIffEveryGatePassed(id: MessageId, reply: nat -> Answer, n: nat)
    requires n >= 7
    ensures After(id, reply, n).Done? && (After(id, reply, n) == Done(Created(id)) <==> PassesEveryGate(reply))
  {
    FirstFour(id, reply);
    LastThree(id, reply);
    DoneStays(id, reply, 7, n);
  }

  lemma LastThree(id: MessageId, reply: nat -> Answer)
    requires var pc := After(id, reply, 4); pc.Charging? || pc.Done? || pc == Marking(NotOptedIn)
    requires After(id, reply, 4) != Done(Created(id))
    ensures After(id, reply, 7).Done?
    ensures After(id, reply, 7) == Done(Created(id)) <==> After(id, reply, 4).Charging? && reply(4).ok && reply(4).yes && reply(5).ok
  {
    var four, five, six := After(id, reply, 4), After(id, reply, 5), After(id, reply, 6);
    assert five == if four.Done? then four else Next(id, four, reply(4));
    assert six == if five.Done? then five else Next(id, five, reply(5));
  }

  // ----- what is asked, in the questions' own words

  /** Question `i` of the log is the one the source asks then, about this call's tenant, key and number. */
  predicate Justified(c: Call, reply: nat -> Answer, q: Question, i: nat) {
    var r := c.request;
    match q
    case Find(tenant, key) => i == 0 && tenant == r.tenant && key == r.key
    case Insert(x, row) =>
      && i == 1 && x == c.id && reply(0).ok && reply(0).found.None?
      && row.tenant == r.tenant && row.key == r.key && row.phone == r.to && row.template == r.template && row.vars == r.vars
      && row.campaign == (if r.campaign == "" then None else Some(r.campaign))
      && row.state == Queued && row.provider == None && row.sid == None && row.lastError == None
      && row.createdAt == c.now && row.updatedAt == c.now
    case IsSuppressed(tenant, phone) => i == 2 && tenant == r.tenant && phone == r.to && reply(1).ok
    case IsOptedIn(tenant, phone) => i == 3 && tenant == r.tenant && phone == r.to && reply(2).ok && !reply(2).yes
    case IncrementCap(b, maxPerDay) =>
      && i == 4 && reply(3).ok && reply(3).yes && maxPerDay == c.maxPerDay
      && b.tenant == r.tenant && b.phone == r.to && b.day * 86_400_000 <= c.now < (b.day + 1) * 86_400_000
    case Enqueue(x, job) => i == 5 && x == c.id && job == r && reply(4).ok && reply(4).yes
    case Mark(x, state, reason, now) =>
      && x == c.id && now == c.now
      && (|| (i == 3 && reply(2).ok && reply(2).yes && state == Suppressed && reason == "suppressed")
          || (i == 4 && reply(3).ok && !reply(3).yes && state == Suppressed && reason == "not_opted_in")
          || (i == 5 && reply(4).ok && !reply(4).yes && state == Suppressed && reason == "cap_exceeded")
          || (i == 6 && !reply(5).ok && state == Failed && reason == "enqueue_failed"))
  }

  /** The answers that lead to `pc` as the place after `i` of them. */
  predicate Reached(reply: nat -> Answer, i: nat, pc: Pc) {
    match pc
    case Finding => i == 0
    case Inserting => i == 1 && reply(0).ok && reply(0).found.None?
    case AskingSuppression => i == 2 && reply(1).ok
    case AskingConsent => i == 3 && reply(2).ok && !reply(2).yes
    case Charging => i == 4 && reply(3).ok && reply(3).yes
    case Enqueueing => i == 5 && reply(4).ok && reply(4).yes
    case Marking(OnSuppressionList) => i == 3 && reply(2).ok && reply(2).yes
    case Marking(NotOptedIn) => i == 4 && reply(3).ok && !reply(3).yes
    case Marking(CapExceeded) => i == 5 && reply(4).ok && !reply(4).yes
    case Marking(EnqueueFailed) => i == 6 && !reply(5).ok
    case Done(_) => true
  }

  lemma ReachedNext(id: MessageId, reply: nat -> Answer, i: nat, pc: Pc)
    requires !pc.Done? && Reached(reply, i, pc)
    ensures Reached(reply, i + 1, Next(id, pc, reply(i)))
  {
  }

  lemma {:induction false} ReachedAfter(id: MessageId, reply: nat -> Answer, n: nat)
    ensures Reached(reply, n, After(id, reply, n))
  {
    if n > 0 {
      ReachedAfter(id, reply, n - 1);
      if !After(id, reply, n - 1).Done? { ReachedNext(id, reply, n - 1, After(id, reply, n - 1)); }
    }
  }

  lemma {:induction false} TraceLength(c: Call, reply: nat -> Answer, n: nat)
    ensures var log := Trace(c.request, c.id, c.now, c.maxPerDay, reply, n);
            |log| <= n && (!After(c.id, reply, n).Done? ==> |log| == n)
  {
    if n > 0 { TraceLength(c, reply, n - 1); }
  }

  lemma {:induction false} TraceAt(c: Call, reply: nat -> Answer, n: nat, i: nat)
    requires i < |Trace(c.request, c.id, c.now, c.maxPerDay, reply, n)|
    ensures !After(c.id, reply, i).Done?
    ensures Trace(c.request, c.id, c.now, c.maxPerDay, reply, n)[i] == QuestionOf(c.request, c.id, c.now, c.maxPerDay, After(c.id, reply, i))
  {
    TraceLength(c, reply, n - 1);
    if i < |Trace(c.request, c.id, c.now, c.maxPerDay, reply, n - 1)| { TraceAt(c, reply, n - 1, i); }
  }

  lemma QuestionIsJustified(c: Call, reply: nat -> Answer, i: nat, pc: Pc)
    requires !pc.Done? && Reached(reply, i, pc)
    ensures Justified(c, reply, QuestionOf(c.request, c.id, c.now, c.maxPerDay, pc), i)
  {
    if pc.Charging? { DayOfIs(c.now); }
  }

  /** Every question of every API call: the lookups concern the call's tenant and its key or number, the
      row and the job carry the request, the cap is that of the tenant, number and UTC day, and each
      mark has the state and text of the gate that refused. */
  lemma QuestionsAreJustified(c: Call, reply: nat -> Answer, n: nat, i: nat)
    requires i < |Trace(c.request, c.id, c.now, c.maxPerDay, reply, n)|
    ensures Justified(c, reply, Trace(c.request, c.id, c.now, c.maxPerDay, reply, n)[i], i)
  {
    TraceAt(c, reply, n, i);
    ReachedAfter(c.id, reply, i);
    QuestionIsJustified(c, reply, i, After(c.id, reply, i));
  }

  /** Answer `a` to question `q` ends call `id` with this reply. */
  predicate Ends(id: MessageId, q: Question, a: Answer, reply: Reply) {
    match q
    case Find(_, _) => if a.ok then a.found.Some? && reply == Existing(a.found.value.0, a.found.value.1) else reply == Error
    case Enqueue(_, _) => a.ok && reply == Created(id)
    case Mark(_, _, reason, _) =>
      if reason == "enqueue_failed" || (reason == "suppressed" && !a.ok) then reply == Error else reply == Rejected(id)
    case _ => !a.ok && reply == Error
  }

  lemma {:induction false} TraceStops(c: Call, reply: nat -> Answer, i: nat, n: nat)
    requires i <= n && After(c.id, reply, i).Done?
    ensures After(c.id, reply, n) == After(c.id, reply, i)
    ensures Trace(c.request, c.id, c.now, c.maxPerDay, reply, n) == Trace(c.request, c.id, c.now, c.maxPerDay, reply, i)
  {
    if i < n { TraceStops(c, reply, i, n - 1); }
  }

  lemma {:induction false} LastStep(id: MessageId, reply: nat -> Answer, n: nat) returns (j: nat)
    requires After(id, reply, n).Done?
    ensures j < n && !After(id, reply, j).Done? && After(id, reply, n) == Next(id, After(id, reply, j), reply(j))
  {
    if After(id, reply, n - 1).Done? { j := LastStep(id, reply, n - 1); } else { j := n - 1; }
  }

  lemma OneStep(c: Call, reply: nat -> Answer, j: nat)
    requires !After(c.id, reply, j).Done?
    ensures After(c.id, reply, j + 1) == Next(c.id, After(c.id, reply, j), reply(j))
    ensures Trace(c.request, c.id, c.now, c.maxPerDay, reply, j + 1)
            == Trace(c.request, c.id, c.now, c.maxPerDay, reply, j) + [QuestionOf(c.request, c.id, c.now, c.maxPerDay, After(c.id, reply, j))]
  {
  }

  /** The last step `j` of a call that is over asked the last question. */
  lemma LastAsked(c: Call, reply: nat -> Answer, n: nat) returns (j: nat, pc: Pc)
    requires After(c.id, reply, n).Done?
    ensures !pc.Done? && After(c.id, reply, n) == Next(c.id, pc, reply(j))
    ensures var log := Trace(c.request, c.id, c.now, c.maxPerDay, reply, n);
            |log| == j + 1 && log[j] == QuestionOf(c.request, c.id, c.now, c.maxPerDay, pc)
  {
    j := LastStep(c.id, reply, n);
    pc := After(c.id, reply, j);
    TraceLength(c, reply, j);
    OneStep(c, reply, j);
    TraceStops(c, reply, j + 1, n);
  }

  lemma EndsThere(c: Call, pc: Pc, a: Answer)
    requires !pc.Done? && Next(c.id, pc, a).Done?
    ensures Ends(c.id, QuestionOf(c.request, c.id, c.now, c.maxPerDay, pc), a, Next(c.id, pc, a).reply)
  {
  }

  /** A call ends with the answer to its last question: an existing message, a created one, a rejection
      or an error, each for its cause.  Together with what justifies each question this leaves the call
      no choice. */
  lemma EndsForCause(c: Call, reply: nat -> Answer, n: nat)
    requires After(c.id, reply, n).Done?
    ensures var log := Trace(c.request, c.id, c.now, c.maxPerDay, reply, n);
            log != [] && Ends(c.id, log[|log| - 1], reply(|log| - 1), After(c.id, reply, n).reply)
  {
    var j, pc := LastAsked(c, reply, n);
    EndsThere(c, pc, reply(j));
  }

  // ----- one phone number, one spelling

  /** `at` lists the positions of the characters of `p` that `n` keeps. */
  ghost predicate Keeps(p: string, n: string, at: seq<nat>) {
    && |at| == |n|
    && (forall i | 0 <= i < |at| :: at[i] < |p| && p[at[i]] == n[i])
    && (forall i, j | 0 <= i < j < |at| :: at[i] < at[j])
  }

  lemma {:induction false} BlanksDropped(s: string) returns (at: seq<nat>)
    ensures Keeps(s, DropBlanks(s), at) && AreNotBlank(s, at)
  {
    if s == "" {
      at := [];
    } else {
      var rest := BlanksDropped(s[1..]);
      var later := seq(|rest|, i requires 0 <= i < |rest| => rest[i] + 1);
      at := (if s[0] == ' ' then [] else [0]) + later;
      Shifted(rest, later);
      PutBefore(s, DropBlanks(s[1..]), rest, later);
      NotBlankBefore(s, rest, later);
    }
  }

  ghost predicate AreNotBlank(s: string, at: seq<nat>) {
    forall k: nat | k < |s| :: k in at <==> s[k] != ' '
  }

  lemma PutBefore(s: string, n: string, rest: seq<nat>, later: seq<nat>)
    requires s != "" && Keeps(s[1..], n, rest) && |later| == |rest| && forall i | 0 <= i < |rest| :: later[i] == rest[i] + 1
    ensures Keeps(s, n, later) && Keeps(s, [s[0]] + n, [0] + later)
  {
  }

  lemma NotBlankBefore(s: string, rest: seq<nat>, later: seq<nat>)
    requires s != "" && AreNotBlank(s[1..], rest) && forall k: nat :: k in later <==> k > 0 && k - 1 in rest
    ensures AreNotBlank(s, (if s[0] == ' ' then [] else [0]) + later)
  {
    forall k: nat | k < |s| ensures k in (if s[0] == ' ' then [] else [0]) + later <==> s[k] != ' ' {
      if k > 0 { assert s[k] == s[1..][k - 1]; }
    }
  }

  lemma Shifted(rest: seq<nat>, later: seq<nat>)
    requires |later| == |rest| && forall i | 0 <= i < |rest| :: later[i] == rest[i] + 1
    ensures forall k: nat :: k in later <==> k > 0 && k - 1 in rest
  {
    forall k: nat | k > 0 && k - 1 in rest ensures k in later {
      var i :| 0 <= i < |rest| && rest[i] == k - 1;
      assert later[i] == k;
    }
  }

  /** A normalized number keeps, in order, exactly the characters that are not blank of what is left
      when spaces are cut off at both ends. */
  lemma NormalizePhoneKeepsTheRest(p: string) returns (l: string, mid: string, r: string, at: seq<nat>)
    ensures p == l + mid + r && (forall c <- l + r :: IsSpace(c)) && Trimmed(mid)
    ensures Keeps(mid, NormalizePhone(p), at) && forall k: nat | k < |mid| :: k in at <==> mid[k] != ' '
  {
    mid := TrimSpace(p);
    TrimSpaceTrims(p);
    l, r := TrimmedOff(p);
    at := BlanksDropped(mid);
  }

  lemma {:induction false} DropBlanksKeepsEnds(s: string)
    requires s != "" && s[|s| - 1] != ' '
    ensures var d := DropBlanks(s); d != "" && d[|d| - 1] == s[|s| - 1] && (s[0] != ' ' ==> d[0] == s[0])
  {
    if |s| > 1 { DropBlanksKeepsEnds(s[1..]); }
  }

  lemma {:induction false} DropBlanksIsFixed(s: string)
    ensures ' ' !in DropBlanks(s)
    ensures ' ' !in s ==> DropBlanks(s) == s
  {
    if s != "" { DropBlanksIsFixed(s[1..]); }
  }

  /** A normalized number has no blank and no space at either end, and normalizing again
      changes nothing, so every spelling of a number is charged to one cap row. */
  lemma NormalizePhoneIsIdempotent(p: string)
    ensures ' ' !in NormalizePhone(p) && Trimmed(NormalizePhone(p))
    ensures NormalizePhone(NormalizePhone(p)) == NormalizePhone(p)
  {
    TrimSpaceTrims(p);
    var s := TrimSpace(p);
    if s != "" { DropBlanksKeepsEnds(s); }
    DropBlanksIsFixed(s);
    TrimSpaceIsFixed(DropBlanks(s));
    DropBlanksIsFixed(DropBlanks(s));
  }
}
