/** The reconciler: rows stuck in `submitted` take the state of their latest terminal delivery event. */
module Reconciler {
  import opened Boundary
  import opened Tables
  import System

  const BATCH := 50_000
  const GRACE_MS := 10_000

  predicate TerminalStatus(status: string) {
    status == "delivered" || status == "failed" || status == "undelivered"
  }

  function StateOf(status: string): State {
    if status == "delivered" then Delivered else Failed
  }

  /** A terminal event of the given provider message. */
  predicate Concerns(e: DeliveryEvent, provider: string, sid: string) {
    TerminalStatus(e.status) && e.provider == provider && e.sid == sid
  }

  /** `e` is a latest terminal event of its provider message. */
  ghost predicate IsLast(events: seq<DeliveryEvent>, e: DeliveryEvent) {
    && e in events && TerminalStatus(e.status)
    && forall f <- events :: Concerns(f, e.provider, e.sid) ==> f.receivedAt <= e.receivedAt
  }

  /** SELECT DISTINCT ON (provider, provider_msg_id) ... ORDER BY received_at DESC */
  method LastTerminal(events: seq<DeliveryEvent>) returns (last: map<(string, string), DeliveryEvent>)
    ensures forall k <- last :: (last[k].provider, last[k].sid) == k && IsLast(events, last[k])
    ensures forall e <- events :: TerminalStatus(e.status) ==> (e.provider, e.sid) in last
  {
    last := map[];
    for i := 0 to |events|
      invariant forall k <- last :: (last[k].provider, last[k].sid) == k && IsLast(events[..i], last[k])
      invariant forall e <- events[..i] :: TerminalStatus(e.status) ==> (e.provider, e.sid) in last
    {
      var e := events[i];
      assert events[..i + 1] == events[..i] + [e];
      if TerminalStatus(e.status) {
        var k := (e.provider, e.sid);
        if k !in last || last[k].receivedAt <= e.receivedAt { last := last[k := e]; }
      }
    }
    assert events[..|events|] == events;
  }

  // ----- which rows to fix

  predicate Stuck(r: Row, now: int) {
    r.state.Submitted? && r.updatedAt < now - GRACE_MS && r.provider.Some? && r.sid.Some?
  }

  ghost predicate HasTerminal(events: seq<DeliveryEvent>, r: Row) {
    r.provider.Some? && r.sid.Some? && exists e <- events :: Concerns(e, r.provider.value, r.sid.value)
  }

  ghost function Eligible(t: Tables, now: int): set<MessageId> {
    set id | id in t.messages && Stuck(t.messages[id], now) && HasTerminal(t.events, t.messages[id])
  }

  /** `e` is the event that decides row `r`. */
  ghost predicate Decides(events: seq<DeliveryEvent>, e: DeliveryEvent, r: Row) {
    IsLast(events, e) && r.provider == Some(e.provider) && r.sid == Some(e.sid)
  }

  function Min(a: int, b: int): int {
    if a < b then a else b
  }

  /** The events that may decide row `r` are no newer than `at`. */
  ghost predicate DecidedBefore(events: seq<DeliveryEvent>, r: Row, at: int) {
    forall e :: Decides(events, e, r) ==> e.receivedAt <= at
  }

  /** A possible result of the batch: eligible rows with their deciding events, newest events
      first, as many as the limit allows.  Ties in `received_at` leave a choice. */
  ghost predicate ToFix(t: Tables, now: int, limit: nat, fix: map<MessageId, DeliveryEvent>) {
    && fix.Keys <= Eligible(t, now)
    && |fix| == Min(|Eligible(t, now)|, limit)
    && (forall id <- fix :: Decides(t.events, fix[id], t.messages[id]))
    && (forall id <- fix, other <- Eligible(t, now) - fix.Keys :: DecidedBefore(t.events, t.messages[other], fix[id].receivedAt))
  }

  /** The whole selection: join each stuck row with its latest terminal event, then take the
      newest until the limit. */
  method SelectFixes(t: Tables, now: int, limit: nat) returns (fix: map<MessageId, DeliveryEvent>)
    ensures ToFix(t, now, limit, fix)
  {
    var last := LastTerminal(t.events);
    var joined := map id | id in t.messages && Stuck(t.messages[id], now)
                           && (t.messages[id].provider.value, t.messages[id].sid.value) in last
                         :: last[(t.messages[id].provider.value, t.messages[id].sid.value)];
    JoinedIsEligible(t, now, last, joined);
    fix := TakeNewest(joined, limit);
    TakenIsToFix(t, now, limit, joined, fix);
  }

  /** ORDER BY received_at DESC LIMIT */
  method TakeNewest(joined: map<MessageId, DeliveryEvent>, limit: nat) returns (fix: map<MessageId, DeliveryEvent>)
    ensures Taken(joined, limit, fix)
  {
    var left := joined.Keys;
    fix := map[];
    while left != {} && |fix| < limit
      invariant Parted(joined, fix, left) && |fix| <= limit
      invariant NoneNewerLeft(joined, fix, left)
      decreases left
    {
      var id := Newest(joined, left);
      PartOne(joined, fix, left, id);
      NoneNewerAfter(joined, fix, left, id);
      fix, left := fix[id := joined[id]], left - {id};
    }
    TakenSize(joined, limit, fix, left);
  }

  /** Some entries are in `fix`, the keys of the others are `left`. */
  ghost predicate Parted(joined: map<MessageId, DeliveryEvent>, fix: map<MessageId, DeliveryEvent>, left: set<MessageId>) {
    fix.Keys <= joined.Keys && left == joined.Keys - fix.Keys && forall id <- fix :: fix[id] == joined[id]
  }

  ghost predicate NoneNewerLeft(joined: map<MessageId, DeliveryEvent>, fix: map<MessageId, DeliveryEvent>, left: set<MessageId>)
    requires fix.Keys <= joined.Keys && left <= joined.Keys
  {
    forall id <- fix, other <- left :: joined[other].receivedAt <= joined[id].receivedAt
  }

  lemma PartOne(joined: map<MessageId, DeliveryEvent>, fix: map<MessageId, DeliveryEvent>, left: set<MessageId>, id: MessageId)
    requires Parted(joined, fix, left) && id in left
    ensures Parted(joined, fix[id := joined[id]], left - {id}) && |fix[id := joined[id]]| == |fix| + 1
  {
  }

  lemma NoneNewerAfter(joined: map<MessageId, DeliveryEvent>, fix: map<MessageId, DeliveryEvent>, left: set<MessageId>, id: MessageId)
    requires fix.Keys <= joined.Keys && left <= joined.Keys && NoneNewerLeft(joined, fix, left)
    requires id in left && forall other <- left :: joined[other].receivedAt <= joined[id].receivedAt
    ensures NoneNewerLeft(joined, fix[id := joined[id]], left - {id})
  {
    forall i <- fix[id := joined[id]], other <- left - {id} ensures joined[other].receivedAt <= joined[i].receivedAt {
      if i != id { assert i in fix; }
    }
  }

  lemma TakenSize(joined: map<MessageId, DeliveryEvent>, limit: nat, fix: map<MessageId, DeliveryEvent>, left: set<MessageId>)
    requires Parted(joined, fix, left) && |fix| <= limit && (left == {} || limit <= |fix|)
    ensures |fix| == Min(|joined|, limit)
  {
    assert joined.Keys == left + fix.Keys;
    assert |left + fix.Keys| == |left| + |fix.Keys|;
    assert |joined.Keys| == |joined| && |fix.Keys| == |fix|;
  }

  ghost predicate Taken(joined: map<MessageId, DeliveryEvent>, limit: nat, fix: map<MessageId, DeliveryEvent>) {
    && fix.Keys <= joined.Keys && |fix| == Min(|joined|, limit)
    && (forall id <- fix :: fix[id] == joined[id])
    && (forall id <- fix, other <- joined.Keys - fix.Keys :: joined[other].receivedAt <= fix[id].receivedAt)
  }

  lemma TakenIsToFix(t: Tables, now: int, limit: nat, joined: map<MessageId, DeliveryEvent>, fix: map<MessageId, DeliveryEvent>)
    requires joined.Keys == Eligible(t, now) && Taken(joined, limit, fix)
    requires forall id <- joined :: Decides(t.events, joined[id], t.messages[id])
    requires forall id <- joined, e <- t.events :: Decides(t.events, e, t.messages[id]) ==> e.receivedAt == joined[id].receivedAt
    ensures ToFix(t, now, limit, fix)
  {
    forall id <- fix, other <- Eligible(t, now) - fix.Keys ensures DecidedBefore(t.events, t.messages[other], fix[id].receivedAt) {
      assert joined[other].receivedAt <= joined[id].receivedAt;
    }
  }

  method Newest(joined: map<MessageId, DeliveryEvent>, left: set<MessageId>) returns (id: MessageId)
    requires left != {} && left <= joined.Keys
    ensures id in left && forall other <- left :: joined[other].receivedAt <= joined[id].receivedAt
  {
    id :| id in left;
    var rest := left - {id};
    while rest != {}
      invariant id in left && rest <= left
      invariant forall other <- left - rest :: joined[other].receivedAt <= joined[id].receivedAt
      decreases rest
    {
      var x :| x in rest;
      if joined[id].receivedAt < joined[x].receivedAt { id := x; }
      rest := rest - {x};
    }
  }

  lemma SameDecision(events: seq<DeliveryEvent>, e: DeliveryEvent, f: DeliveryEvent, r: Row)
    requires Decides(events, e, r) && Decides(events, f, r)
    ensures e.receivedAt == f.receivedAt
  {
  }

  lemma JoinedIsEligible(t: Tables, now: int, last: map<(string, string), DeliveryEvent>, joined: map<MessageId, DeliveryEvent>)
    requires forall k <- last :: (last[k].provider, last[k].sid) == k && IsLast(t.events, last[k])
    requires forall e <- t.events :: TerminalStatus(e.status) ==> (e.provider, e.sid) in last
    requires joined == map id | id in t.messages && Stuck(t.messages[id], now)
                                && (t.messages[id].provider.value, t.messages[id].sid.value) in last
                              :: last[(t.messages[id].provider.value, t.messages[id].sid.value)]
    ensures joined.Keys == Eligible(t, now)
    ensures forall id <- joined :: Decides(t.events, joined[id], t.messages[id])
    ensures forall id <- joined, e <- t.events :: Decides(t.events, e, t.messages[id]) ==> e.receivedAt == joined[id].receivedAt
  {
    forall id <- joined, e <- t.events | Decides(t.events, e, t.messages[id]) ensures e.receivedAt == joined[id].receivedAt {
      SameDecision(t.events, e, joined[id], t.messages[id]);
    }
    forall id <- joined ensures id in Eligible(t, now) {
      assert Concerns(joined[id], t.messages[id].provider.value, t.messages[id].sid.value);
    }
  }

  // ----- the update

  function Fixed(r: Row, e: DeliveryEvent, now: int): Row {
    Restated(r, StateOf(e.status), OrEmpty(e.errorCode), now)
  }

  function Update(t: Tables, fix: map<MessageId, DeliveryEvent>, now: int): Tables {
    t.(messages := map id | id in t.messages :: if id in fix then Fixed(t.messages[id], fix[id], now) else t.messages[id])
  }

  /** What event `e` makes of a row, in the statement's own words. */
  predicate RowFixed(r: Row, r': Row, e: DeliveryEvent, now: int) {
    r' == r.(state := if e.status == "delivered" then Delivered else Failed,
             lastError := if e.errorCode == None || e.errorCode == Some("") then None else e.errorCode, updatedAt := now)
  }

  /** The rows of one run, updated in place one after the other. */
  method UpdateRows(rows: map<MessageId, Row>, fix: map<MessageId, DeliveryEvent>, now: int) returns (after: map<MessageId, Row>)
    requires fix.Keys <= rows.Keys
    ensures after == map id | id in rows :: if id in fix then Fixed(rows[id], fix[id], now) else rows[id]
    ensures forall id <- fix :: RowFixed(rows[id], after[id], fix[id], now)
  {
    after := rows;
    var todo := fix.Keys;
    while todo != {}
      invariant after.Keys == rows.Keys && todo <= fix.Keys
      invariant forall id <- rows :: after[id] == (if id in fix && id !in todo then Fixed(rows[id], fix[id], now) else rows[id])
      decreases todo
    {
      var id :| id in todo;
      var e := fix[id];
      after := after[id := after[id].(state := if e.status == "delivered" then Delivered else Failed,
                                      lastError := if e.errorCode == Some("") then None else e.errorCode, updatedAt := now)];
      todo := todo - {id};
    }
  }

  /** One run of the job. */
  method Reconcile(t: Tables, now: int) returns (u: Tables, fix: map<MessageId, DeliveryEvent>)
    ensures ToFix(t, now, BATCH, fix) && u == Update(t, fix, now)
  {
    fix := SelectFixes(t, now, BATCH);
    var rows := UpdateRows(t.messages, fix, now);
    u := t.(messages := rows);
  }

  /** Row `r` is stuck: submitted, untouched for ten seconds, and known to the provider. */
  predicate WasStuck(r: Row, now: int) {
    r.state == Submitted && r.updatedAt < now - 10_000 && r.provider != None && r.sid != None
  }

  /** `e` is an event about row `r` that says how it ended, and none such is later. */
  ghost predicate LatestOf(events: seq<DeliveryEvent>, e: DeliveryEvent, r: Row) {
    && e in events && EndsRow(e, r)
    && (forall f <- events :: EndsRow(f, r) ==> f.receivedAt <= e.receivedAt)
  }

  predicate EndsRow(e: DeliveryEvent, r: Row) {
    && (e.status == "delivered" || e.status == "failed" || e.status == "undelivered")
    && r.provider == Some(e.provider) && r.sid == Some(e.sid)
  }

  ghost predicate AllFixed(t: Tables, now: int, u: Tables, fix: map<MessageId, DeliveryEvent>) {
    forall id <- fix ::
      && id in t.messages && id in u.messages && WasStuck(t.messages[id], now)
      && LatestOf(t.events, fix[id], t.messages[id]) && RowFixed(t.messages[id], u.messages[id], fix[id], now)
  }

  /** A stuck row with an event is left out only if 50000 rows were taken, none for an older event. */
  ghost predicate LeftOutOnlyWhenFull(t: Tables, now: int, fix: map<MessageId, DeliveryEvent>) {
    forall id <- t.messages, e <- t.events :: id !in fix && WasStuck(t.messages[id], now) && LatestOf(t.events, e, t.messages[id]) ==>
      |fix| == 50_000 && forall other <- fix :: e.receivedAt <= fix[other].receivedAt
  }

  /** One run, in the statement's own words: at most 50000 rows change, each of them stuck and given
      the state and error of a latest event, and all such rows if there are no more. */
  lemma ReconcileMeans(t: Tables, now: int, u: Tables, fix: map<MessageId, DeliveryEvent>)
    requires ToFix(t, now, BATCH, fix) && u == Update(t, fix, now)
    ensures |fix| <= 50_000 && AllFixed(t, now, u, fix) && LeftOutOnlyWhenFull(t, now, fix)
    ensures u == t.(messages := u.messages) && u.messages.Keys == t.messages.Keys
    ensures forall id <- t.messages :: id !in fix ==> u.messages[id] == t.messages[id]
  {
    FixesMean(t, now, fix);
    forall id <- t.messages, e <- t.events | id !in fix && WasStuck(t.messages[id], now) && LatestOf(t.events, e, t.messages[id])
      ensures |fix| == 50_000 && forall other <- fix :: e.receivedAt <= fix[other].receivedAt
    {
      LeftOut(t, now, fix, id, e);
    }
  }

  lemma FixesMean(t: Tables, now: int, fix: map<MessageId, DeliveryEvent>)
    requires ToFix(t, now, BATCH, fix)
    ensures AllFixed(t, now, Update(t, fix, now), fix)
  {
    forall id <- fix ensures id in t.messages && WasStuck(t.messages[id], now) && LatestOf(t.events, fix[id], t.messages[id])
                             && RowFixed(t.messages[id], Update(t, fix, now).messages[id], fix[id], now)
    {
      FixMeans(t, now, fix, id);
    }
  }

  lemma FixMeans(t: Tables, now: int, fix: map<MessageId, DeliveryEvent>, id: MessageId)
    requires ToFix(t, now, BATCH, fix) && id in fix
    ensures id in t.messages && WasStuck(t.messages[id], now) && LatestOf(t.events, fix[id], t.messages[id])
    ensures RowFixed(t.messages[id], Update(t, fix, now).messages[id], fix[id], now)
  {
    assert id in Eligible(t, now);
    DecidesMeans(t.events, fix[id], t.messages[id]);
  }

  lemma DecidesMeans(events: seq<DeliveryEvent>, e: DeliveryEvent, r: Row)
    ensures Decides(events, e, r) <==> LatestOf(events, e, r)
  {
    if Decides(events, e, r) {
      forall f <- events | EndsRow(f, r) ensures f.receivedAt <= e.receivedAt {
        assert Concerns(f, e.provider, e.sid);
      }
    }
    if LatestOf(events, e, r) {
      forall f <- events | Concerns(f, e.provider, e.sid) ensures f.receivedAt <= e.receivedAt {
        assert EndsRow(f, r);
      }
    }
  }

  lemma LeftOut(t: Tables, now: int, fix: map<MessageId, DeliveryEvent>, id: MessageId, e: DeliveryEvent)
    requires ToFix(t, now, BATCH, fix) && id in t.messages && id !in fix
    requires WasStuck(t.messages[id], now) && LatestOf(t.events, e, t.messages[id])
    ensures |fix| == 50_000 && forall other <- fix :: e.receivedAt <= fix[other].receivedAt
  {
    DecidesMeans(t.events, e, t.messages[id]);
    assert Concerns(e, t.messages[id].provider.value, t.messages[id].sid.value);
    assert id in Eligible(t, now) - fix.Keys;
    if |Eligible(t, now)| <= BATCH { SubsetOfSameSize(fix.Keys, Eligible(t, now)); }
    forall other <- fix ensures e.receivedAt <= fix[other].receivedAt {
      assert DecidedBefore(t.events, t.messages[id], fix[other].receivedAt);
    }
  }

  function Verdicts(fix: map<MessageId, DeliveryEvent>): map<MessageId, (State, string)> {
    map id | id in fix :: (StateOf(fix[id].status), OrEmpty(fix[id].errorCode))
  }

  lemma SameUpdate(t: Tables, fix: map<MessageId, DeliveryEvent>, now: int)
    requires forall id <- fix :: id in t.messages && t.messages[id].state.Submitted?
    ensures Update(t, fix, now).messages == System.DoReconcile(t, Verdicts(fix), now).messages
  {
  }

  /** A run is one of the reconciler events of the whole system. */
  lemma IsSystemEvent(t: Tables, now: int, limit: nat, fix: map<MessageId, DeliveryEvent>)
    requires ToFix(t, now, limit, fix)
    ensures Update(t, fix, now) == System.DoReconcile(t, Verdicts(fix), now)
  {
    SameUpdate(t, fix, now);
  }

  // ----- the reconciler agrees with the webhook

  /** What the webhook's update statement does with event `e`. */
  function Webhook(t: Tables, e: DeliveryEvent, now: int): Tables {
    UpdateByProviderMsgID(t, e.provider, e.sid, StateOf(e.status), OrEmpty(e.errorCode), now)
  }

  /** The webhook applied to each event in turn, each at its own time. */
  function Webhooks(t: Tables, es: seq<DeliveryEvent>, nows: seq<int>): Tables
    requires |nows| == |es|
  {
    if es == [] then t else Webhook(Webhooks(t, es[..|es| - 1], nows[..|es| - 1]), es[|es| - 1], nows[|es| - 1])
  }

  lemma {:induction false} WebhooksKeepIdentity(t: Tables, es: seq<DeliveryEvent>, nows: seq<int>, id: MessageId)
    requires |nows| == |es| && id in t.messages
    ensures var u := Webhooks(t, es, nows);
            id in u.messages && u.messages[id].provider == t.messages[id].provider && u.messages[id].sid == t.messages[id].sid
  {
    if es != [] { WebhooksKeepIdentity(t, es[..|es| - 1], nows[..|es| - 1], id); }
  }

  /** `es` lists the terminal events of one provider message in the order they were received. */
  ghost predicate InOrder(events: seq<DeliveryEvent>, es: seq<DeliveryEvent>, provider: string, sid: string) {
    && (forall e :: e in es <==> e in events && Concerns(e, provider, sid))
    && (forall i, j | 0 <= i < j < |es| :: es[i].receivedAt <= es[j].receivedAt)
  }

  /** The state and error an event stands for. */
  function Verdict(e: DeliveryEvent): (State, Option<string>) {
    (StateOf(e.status), NullIfEmpty(OrEmpty(e.errorCode)))
  }

  /** All latest terminal events of row `r` stand for the same state and error. */
  ghost predicate Unanimous(events: seq<DeliveryEvent>, r: Row) {
    forall e, f :: Decides(events, e, r) && Decides(events, f, r) ==> Verdict(e) == Verdict(f)
  }

  /** In particular, a single latest event is unanimous. */
  lemma DistinctTimesAreUnanimous(events: seq<DeliveryEvent>, r: Row)
    requires forall e <- events, f <- events ::
               TerminalStatus(e.status) && Concerns(f, e.provider, e.sid) && Matches(r, e.provider, e.sid) && e.receivedAt == f.receivedAt ==> e == f
    ensures Unanimous(events, r)
  {
    forall e, f | Decides(events, e, r) && Decides(events, f, r) ensures Verdict(e) == Verdict(f) {
      SameDecision(events, e, f, r);
    }
  }

  predicate SameVerdict(r: Row, r': Row) {
    r.state == r'.state && r.lastError == r'.lastError
  }

  /** The reconciler's verdict on row `id` is the one the webhook leaves, applied to `es` in order. */
  ghost predicate Agree(t: Tables, now: int, fix: map<MessageId, DeliveryEvent>, id: MessageId, es: seq<DeliveryEvent>, nows: seq<int>)
    requires |nows| == |es| && id in t.messages
  {
    var u, v := Update(t, fix, now), Webhooks(t, es, nows);
    id in v.messages && SameVerdict(u.messages[id], v.messages[id])
  }

  lemma AgreementIsOneVerdict(t: Tables, now: int, fix: map<MessageId, DeliveryEvent>, id: MessageId, es: seq<DeliveryEvent>, nows: seq<int>)
    requires id in t.messages && id in fix && |nows| == |es| > 0 && Matches(t.messages[id], es[|es| - 1].provider, es[|es| - 1].sid)
    ensures Agree(t, now, fix, id, es, nows) <==> Verdict(fix[id]) == Verdict(es[|es| - 1])
  {
    WebhooksEnd(t, es, nows, id);
  }

  /** If its latest terminal events are unanimous, the state and error the reconciler gives a stuck
      row are those the webhook would have left, had it applied each of the row's terminal events in
      the order received. */
  lemma AgreesWithWebhook(t: Tables, now: int, limit: nat, fix: map<MessageId, DeliveryEvent>, id: MessageId,
                          es: seq<DeliveryEvent>, nows: seq<int>)
    requires ToFix(t, now, limit, fix) && id in fix && Unanimous(t.events, t.messages[id])
    requires |nows| == |es| && InOrder(t.events, es, fix[id].provider, fix[id].sid)
    ensures Agree(t, now, fix, id, es, nows)
  {
    LastOfOrder(t.events, es, fix[id]);
    AgreementIsOneVerdict(t, now, fix, id, es, nows);
    assert Decides(t.events, es[|es| - 1], t.messages[id]);
  }

  lemma LastOfOrder(events: seq<DeliveryEvent>, es: seq<DeliveryEvent>, e: DeliveryEvent)
    requires IsLast(events, e) && InOrder(events, es, e.provider, e.sid)
    ensures es != [] && IsLast(events, es[|es| - 1]) && Concerns(es[|es| - 1], e.provider, e.sid)
  {
    assert Concerns(e, e.provider, e.sid) && e in es;
    var last := es[|es| - 1];
    assert last in es;
    var i :| 0 <= i < |es| && es[i] == e;
    assert e.receivedAt <= last.receivedAt;
  }

  ghost predicate NoRepeats(es: seq<DeliveryEvent>) {
    forall i, j | 0 <= i < j < |es| :: es[i] != es[j]
  }

  lemma {:induction false} Latest(s: set<DeliveryEvent>) returns (e: DeliveryEvent)
    requires s != {}
    ensures e in s && forall f <- s :: f.receivedAt <= e.receivedAt
    decreases |s|
  {
    e :| e in s;
    if s != {e} {
      var f := Latest(s - {e});
      if e.receivedAt < f.receivedAt { e := f; }
    }
  }

  /** Any set of events can be listed in the order received, each once, with any latest one last. */
  lemma {:induction false} ListedWithLast(s: set<DeliveryEvent>, last: DeliveryEvent) returns (es: seq<DeliveryEvent>)
    requires last in s && forall f <- s :: f.receivedAt <= last.receivedAt
    ensures (forall e :: e in es <==> e in s) && NoRepeats(es) && es != [] && es[|es| - 1] == last
    ensures forall i, j | 0 <= i < j < |es| :: es[i].receivedAt <= es[j].receivedAt
    decreases |s|
  {
    var rest := [];
    if s != {last} {
      var e := Latest(s - {last});
      rest := ListedWithLast(s - {last}, e);
    }
    es := rest + [last];
    forall i, j | 0 <= i < j < |es| ensures es[i].receivedAt <= es[j].receivedAt && es[i] != es[j] {
      assert es[i] in rest;
      if j < |rest| { assert es[j] == rest[j]; }
    }
  }

  lemma OtherDecision(t: Tables, now: int, limit: nat, fix: map<MessageId, DeliveryEvent>, id: MessageId, e: DeliveryEvent)
    requires ToFix(t, now, limit, fix) && id in fix && Decides(t.events, e, t.messages[id])
    ensures ToFix(t, now, limit, fix[id := e])
  {
    SameDecision(t.events, e, fix[id], t.messages[id]);
    SameSize(fix, id, e);
  }

  lemma SameSize(fix: map<MessageId, DeliveryEvent>, id: MessageId, e: DeliveryEvent)
    requires id in fix
    ensures fix[id := e].Keys == fix.Keys && |fix[id := e]| == |fix|
  {
    assert fix[id := e].Keys == fix.Keys;
    assert |fix[id := e]| == |fix[id := e].Keys| == |fix.Keys| == |fix|;
  }

  /** If two latest events stand for different verdicts, some possible batch and some order in which
      the events may have been received, each of them once, disagree. */
  lemma TiesDisagree(t: Tables, now: int, limit: nat, fix: map<MessageId, DeliveryEvent>, id: MessageId, e: DeliveryEvent, f: DeliveryEvent)
    returns (fix': map<MessageId, DeliveryEvent>, es: seq<DeliveryEvent>, nows: seq<int>)
    requires ToFix(t, now, limit, fix) && id in fix
    requires Decides(t.events, e, t.messages[id]) && Decides(t.events, f, t.messages[id]) && Verdict(e) != Verdict(f)
    ensures ToFix(t, now, limit, fix') && id in fix' && InOrder(t.events, es, fix'[id].provider, fix'[id].sid) && NoRepeats(es)
    ensures |nows| == |es| && !Agree(t, now, fix', id, es, nows)
  {
    OtherDecision(t, now, limit, fix, id, e);
    fix' := fix[id := e];
    es := ListedWithLast((set x | x in t.events && Concerns(x, f.provider, f.sid)), f);
    nows := seq(|es|, i => now);
    AgreementIsOneVerdict(t, now, fix', id, es, nows);
  }

  /** `fix` is a possible batch with the row, and `es` an order in which its events may have been received. */
  ghost predicate Comparable(t: Tables, now: int, limit: nat, fix: map<MessageId, DeliveryEvent>, id: MessageId,
                             es: seq<DeliveryEvent>, nows: seq<int>)
  {
    ToFix(t, now, limit, fix) && id in fix && |nows| == |es| && InOrder(t.events, es, fix[id].provider, fix[id].sid)
  }

  /** Every possible batch with the row agrees with every order in which its events may have been
      received. */
  ghost predicate AlwaysAgrees(t: Tables, now: int, limit: nat, id: MessageId)
    requires id in t.messages
  {
    forall fix, es, nows | Comparable(t, now, limit, fix, id, es, nows) :: Agree(t, now, fix, id, es, nows)
  }

  /** For a row that some batch fixes, that is so if and only if its latest terminal events are unanimous. */
  lemma AgreesIffUnanimous(t: Tables, now: int, limit: nat, fix: map<MessageId, DeliveryEvent>, id: MessageId)
    requires ToFix(t, now, limit, fix) && id in fix
    ensures AlwaysAgrees(t, now, limit, id) <==> Unanimous(t.events, t.messages[id])
  {
    if Unanimous(t.events, t.messages[id]) {
      forall fix, es, nows | Comparable(t, now, limit, fix, id, es, nows)
        ensures Agree(t, now, fix, id, es, nows)
      {
        AgreesWithWebhook(t, now, limit, fix, id, es, nows);
      }
    } else {
      var e, f :| Decides(t.events, e, t.messages[id]) && Decides(t.events, f, t.messages[id]) && Verdict(e) != Verdict(f);
      var fix', es, nows := TiesDisagree(t, now, limit, fix, id, e, f);
      assert Comparable(t, now, limit, fix', id, es, nows);
    }
  }

  /** The last webhook wins. */
  lemma WebhooksEnd(t: Tables, es: seq<DeliveryEvent>, nows: seq<int>, id: MessageId)
    requires |nows| == |es| > 0 && id in t.messages
    requires Matches(t.messages[id], es[|es| - 1].provider, es[|es| - 1].sid)
    ensures var v := Webhooks(t, es, nows);
            id in v.messages && v.messages[id].state == StateOf(es[|es| - 1].status)
            && v.messages[id].lastError == NullIfEmpty(OrEmpty(es[|es| - 1].errorCode))
  {
    WebhooksKeepIdentity(t, es[..|es| - 1], nows[..|es| - 1], id);
  }

  // ----- batches

  /** Runs one after the other on a frozen event table: `ts[i + 1]` is what run `i` makes of `ts[i]`. */
  ghost predicate Batches(ts: seq<Tables>, fixes: seq<map<MessageId, DeliveryEvent>>, nows: seq<int>, limit: nat) {
    && |ts| == |fixes| + 1 == |nows| + 1
    && forall i {:trigger fixes[i]} | 0 <= i < |fixes| :: ToFix(ts[i], nows[i], limit, fixes[i]) && ts[i + 1] == Update(ts[i], fixes[i], nows[i])
  }

  /** No other row ages into eligibility while the runs go on. */
  ghost predicate Frozen(t: Tables, nows: seq<int>, now: int) {
    forall i | 0 <= i < |nows| :: Eligible(t, nows[i]) == Eligible(t, now)
  }

  /** Row `r'` is row `r` decided by event `e`, whenever that was. */
  predicate DecidedBy(r: Row, r': Row, e: DeliveryEvent) {
    r' == Fixed(r, e, r'.updatedAt)
  }

  /** Between `t` and `u` only eligible rows changed, and those as their deciding event says. */
  ghost predicate Partly(t: Tables, u: Tables, now: int) {
    && u.messages.Keys == t.messages.Keys && u.events == t.events
    && forall id <- t.messages :: u.messages[id] == t.messages[id]
         || (id in Eligible(t, now) && exists e <- t.events :: Decides(t.events, e, t.messages[id]) && DecidedBy(t.messages[id], u.messages[id], e))
  }

  /** The eligible rows of `t` that `u` has not decided yet. */
  ghost function Left(t: Tables, u: Tables, now: int): set<MessageId>
    requires u.messages.Keys == t.messages.Keys
  {
    set id | id in Eligible(t, now) && u.messages[id] == t.messages[id]
  }

  lemma LeftEligible(t: Tables, u: Tables, now: int, later: int)
    requires Partly(t, u, now) && Eligible(t, later) == Eligible(t, now)
    ensures Eligible(u, later) == Left(t, u, now)
  {
    forall id <- Eligible(u, later) ensures id in Eligible(t, now) && u.messages[id] == t.messages[id] {
      assert u.messages[id].state.Submitted?;
      assert id in Eligible(t, later);
    }
    forall id <- Eligible(t, now) | u.messages[id] == t.messages[id] ensures id in Eligible(u, later) {
      assert id in Eligible(t, later);
    }
  }

  lemma StillPartly(t: Tables, u: Tables, now: int, later: int, fix: map<MessageId, DeliveryEvent>)
    requires Partly(t, u, now)
    requires forall id <- fix :: id in Eligible(t, now) && u.messages[id] == t.messages[id] && Decides(u.events, fix[id], u.messages[id])
    ensures Partly(t, Update(u, fix, later), now)
  {
    var v := Update(u, fix, later);
    forall id <- t.messages
      ensures v.messages[id] == t.messages[id]
         || (id in Eligible(t, now) && exists e <- t.events :: Decides(t.events, e, t.messages[id]) && DecidedBy(t.messages[id], v.messages[id], e))
    {
      if id in fix { assert Decides(t.events, fix[id], t.messages[id]) && DecidedBy(t.messages[id], v.messages[id], fix[id]); }
    }
  }

  /** One run removes min(n, limit) rows from the eligible ones, and only those. */
  lemma OneRun(t: Tables, u: Tables, now: int, later: int, limit: nat, fix: map<MessageId, DeliveryEvent>)
    requires Partly(t, u, now) && Eligible(t, later) == Eligible(t, now) && ToFix(u, later, limit, fix)
    ensures var v := Update(u, fix, later);
            Partly(t, v, now) && Eligible(v, later) == Eligible(u, later) - fix.Keys
  {
    LeftEligible(t, u, now, later);
    StillPartly(t, u, now, later, fix);
    LeftEligible(t, Update(u, fix, later), now, later);
    FixedRowsLeave(t, u, now, later, fix);
  }

  lemma FixedRowsLeave(t: Tables, u: Tables, now: int, later: int, fix: map<MessageId, DeliveryEvent>)
    requires Partly(t, u, now) && fix.Keys <= Eligible(u, later)
    ensures Left(t, Update(u, fix, later), now) == Left(t, u, now) - fix.Keys
  {
    var v := Update(u, fix, later);
    forall id <- Eligible(t, now) ensures v.messages[id] == t.messages[id] <==> u.messages[id] == t.messages[id] && id !in fix {
      if id in fix { assert !v.messages[id].state.Submitted?; }
    }
  }

  /** After k runs exactly max(0, n - k * limit) of the n eligible rows are left. */
  lemma {:induction false} LeftAfter(ts: seq<Tables>, fixes: seq<map<MessageId, DeliveryEvent>>, nows: seq<int>, limit: nat, now: int, k: nat)
    requires Batches(ts, fixes, nows, limit) && Frozen(ts[0], nows, now) && k <= |fixes|
    ensures Partly(ts[0], ts[k], now)
    ensures |Left(ts[0], ts[k], now)| == Max0(|Eligible(ts[0], now)| - k * limit)
  {
    var t := ts[0];
    if k == 0 {
      assert Left(t, t, now) == Eligible(t, now);
    } else {
      LeftAfter(ts, fixes, nows, limit, now, k - 1);
      assert Eligible(t, nows[k - 1]) == Eligible(t, now) && ToFix(ts[k - 1], nows[k - 1], limit, fixes[k - 1])
             && ts[k] == Update(ts[k - 1], fixes[k - 1], nows[k - 1]);
      LeftAfterOne(t, ts[k - 1], now, nows[k - 1], limit, fixes[k - 1]);
      Times(|Eligible(t, now)|, k, limit);
    }
  }

  lemma LeftAfterOne(t: Tables, u: Tables, now: int, later: int, limit: nat, fix: map<MessageId, DeliveryEvent>)
    requires Partly(t, u, now) && Eligible(t, later) == Eligible(t, now) && ToFix(u, later, limit, fix)
    ensures Partly(t, Update(u, fix, later), now)
    ensures |Left(t, Update(u, fix, later), now)| == Max0(|Left(t, u, now)| - limit)
  {
    var v := Update(u, fix, later);
    OneRun(t, u, now, later, limit, fix);
    LeftEligible(t, u, now, later);
    LeftEligible(t, v, now, later);
    Removed(Left(t, u, now), fix.Keys, limit);
  }

  lemma Removed(left: set<MessageId>, gone: set<MessageId>, limit: nat)
    requires gone <= left && |gone| == Min(|left|, limit)
    ensures |left - gone| == Max0(|left| - limit)
  {
    assert |left| == |left - gone| + |gone| by { assert left == (left - gone) + gone; }
  }

  lemma Times(n: int, k: nat, limit: nat)
    requires k > 0
    ensures Max0(Max0(n - (k - 1) * limit) - limit) == Max0(n - k * limit)
  {
    assert k * limit == (k - 1) * limit + limit;
    assert 0 <= (k - 1) * limit;
  }

  /** Once nothing is left, a run changes nothing. */
  lemma NothingLeft(t: Tables, u: Tables, now: int, later: int, limit: nat, fix: map<MessageId, DeliveryEvent>)
    requires Partly(t, u, now) && Left(t, u, now) == {} && Eligible(t, later) == Eligible(t, now) && ToFix(u, later, limit, fix)
    ensures Update(u, fix, later) == u && fix == map[]
  {
    LeftEligible(t, u, now, later);
    assert fix.Keys == {};
    assert Update(u, fix, later).messages == u.messages;
  }

  /** k runs take n rows off exactly when k is at least ceil(n / limit). */
  lemma CeilDiv(n: nat, limit: nat, k: nat)
    requires limit > 0
    ensures (n + limit - 1) / limit <= k <==> n <= k * limit
  {
    var q := (n + limit - 1) / limit;
    assert q * limit <= n + limit - 1 < q * limit + limit;
    if q <= k { assert q * limit <= k * limit; } else { assert (k + 1) * limit <= q * limit; }
  }

  /** When k runs cover the n eligible rows (k >= ceil(n / limit), by CeilDiv), no row is left and
      further runs change nothing. */
  lemma BatchesReachTheFixpoint(ts: seq<Tables>, fixes: seq<map<MessageId, DeliveryEvent>>, nows: seq<int>, limit: nat, now: int, k: nat)
    requires Batches(ts, fixes, nows, limit) && Frozen(ts[0], nows, now) && limit > 0
    requires |Eligible(ts[0], now)| <= k * limit && k < |fixes|
    ensures ts[k + 1] == ts[k] && fixes[k] == map[]
  {
    LeftAfter(ts, fixes, nows, limit, now, k);
    assert ToFix(ts[k], nows[k], limit, fixes[k]) && Eligible(ts[0], nows[k]) == Eligible(ts[0], now);
    NothingLeft(ts[0], ts[k], now, nows[k], limit, fixes[k]);
  }

  /** Batching does not change the answer: on a frozen event table, once k runs cover the eligible
      rows, each row has the state and error that every possible unlimited pass gives it, if and only
      if it is not eligible or its latest terminal events are unanimous. */
  lemma BatchesEqualOnePass(ts: seq<Tables>, fixes: seq<map<MessageId, DeliveryEvent>>, nows: seq<int>, limit: nat, now: int, k: nat,
                            all: map<MessageId, DeliveryEvent>, id: MessageId)
    requires Batches(ts, fixes, nows, limit) && Frozen(ts[0], nows, now) && limit > 0
    requires |Eligible(ts[0], now)| <= k * limit && k <= |fixes|
    requires ToFix(ts[0], now, |Eligible(ts[0], now)|, all) && id in ts[0].messages
    ensures id in ts[k].messages
    ensures AsEveryPass(ts[0], ts[k], now, id) <==> (id in Eligible(ts[0], now) ==> Unanimous(ts[0].events, ts[0].messages[id]))
  {
    LeftAfter(ts, fixes, nows, limit, now, k);
    AsOnePass(ts[0], ts[k], now, all, id);
  }

  /** Row `id` of `u` is as every possible unlimited pass over `t` leaves it. */
  ghost predicate AsEveryPass(t: Tables, u: Tables, now: int, id: MessageId)
    requires id in t.messages && id in u.messages
  {
    forall all | ToFix(t, now, |Eligible(t, now)|, all) :: SameVerdict(u.messages[id], Update(t, all, now).messages[id])
  }

  lemma OnePass(t: Tables, now: int, all: map<MessageId, DeliveryEvent>, id: MessageId)
    requires ToFix(t, now, |Eligible(t, now)|, all)
    ensures id in all <==> id in Eligible(t, now)
    ensures id in all ==> Decides(t.events, all[id], t.messages[id])
  {
    SubsetOfSameSize(all.Keys, Eligible(t, now));
  }

  lemma AsOnePass(t: Tables, u: Tables, now: int, all: map<MessageId, DeliveryEvent>, id: MessageId)
    requires Partly(t, u, now) && |Left(t, u, now)| == 0 && id in t.messages && ToFix(t, now, |Eligible(t, now)|, all)
    ensures AsEveryPass(t, u, now, id) <==> (id in Eligible(t, now) ==> Unanimous(t.events, t.messages[id]))
  {
    assert id !in Left(t, u, now);
    if id in Eligible(t, now) {
      var e :| e in t.events && Decides(t.events, e, t.messages[id]) && DecidedBy(t.messages[id], u.messages[id], e);
      EveryPassIffUnanimous(t, u, now, all, id, e);
    } else {
      forall all | ToFix(t, now, |Eligible(t, now)|, all) ensures SameVerdict(u.messages[id], Update(t, all, now).messages[id]) {
        OnePass(t, now, all, id);
      }
    }
  }

  lemma EveryPassIffUnanimous(t: Tables, u: Tables, now: int, all: map<MessageId, DeliveryEvent>, id: MessageId, e: DeliveryEvent)
    requires id in t.messages && id in u.messages && id in Eligible(t, now) && ToFix(t, now, |Eligible(t, now)|, all)
    requires Decides(t.events, e, t.messages[id]) && DecidedBy(t.messages[id], u.messages[id], e)
    ensures AsEveryPass(t, u, now, id) <==> Unanimous(t.events, t.messages[id])
  {
    if Unanimous(t.events, t.messages[id]) {
      forall all | ToFix(t, now, |Eligible(t, now)|, all) ensures SameVerdict(u.messages[id], Update(t, all, now).messages[id]) {
        SamePass(t, u, now, all, id, e);
      }
    } else {
      var f, g :| Decides(t.events, f, t.messages[id]) && Decides(t.events, g, t.messages[id]) && Verdict(f) != Verdict(g);
      OtherPass(t, u, now, all, id, e, if Verdict(f) != Verdict(e) then f else g);
    }
  }

  lemma SamePass(t: Tables, u: Tables, now: int, all: map<MessageId, DeliveryEvent>, id: MessageId, e: DeliveryEvent)
    requires id in t.messages && id in u.messages && id in Eligible(t, now) && ToFix(t, now, |Eligible(t, now)|, all)
    requires Decides(t.events, e, t.messages[id]) && DecidedBy(t.messages[id], u.messages[id], e) && Unanimous(t.events, t.messages[id])
    ensures SameVerdict(u.messages[id], Update(t, all, now).messages[id])
  {
    OnePass(t, now, all, id);
    assert Decides(t.events, all[id], t.messages[id]) && Verdict(all[id]) == Verdict(e);
  }

  lemma OtherPass(t: Tables, u: Tables, now: int, all: map<MessageId, DeliveryEvent>, id: MessageId, e: DeliveryEvent, f: DeliveryEvent)
    requires id in t.messages && id in u.messages && id in Eligible(t, now) && ToFix(t, now, |Eligible(t, now)|, all)
    requires DecidedBy(t.messages[id], u.messages[id], e) && Decides(t.events, f, t.messages[id]) && Verdict(f) != Verdict(e)
    ensures !AsEveryPass(t, u, now, id)
  {
    OnePass(t, now, all, id);
    OtherDecision(t, now, |Eligible(t, now)|, all, id, f);
    assert !SameVerdict(u.messages[id], Update(t, all[id := f], now).messages[id]);
  }

  lemma SubsetOfSameSize(a: set<MessageId>, b: set<MessageId>)
    requires a <= b && |a| == |b|
    ensures a == b
  {
    assert |b - a| == |b| - |a| by { assert b == a + (b - a); }
  }

  /** A stored terminal event heals its row: whatever the callback did after storing it, enough
      runs of the reconciler give the row the state of its latest terminal event. */
  lemma EnoughRunsHeal(ts: seq<Tables>, fixes: seq<map<MessageId, DeliveryEvent>>, nows: seq<int>, now: int, k: nat, id: MessageId, e: DeliveryEvent)
    requires Batches(ts, fixes, nows, BATCH) && Frozen(ts[0], nows, now)
    requires |Eligible(ts[0], now)| <= k * BATCH && k <= |fixes|
    requires id in ts[0].messages && Stuck(ts[0].messages[id], now)
    requires e in ts[0].events && TerminalStatus(e.status) && Matches(ts[0].messages[id], e.provider, e.sid)
    ensures id in ts[k].messages && System.Terminal(ts[k].messages[id].state)
    ensures exists last <- ts[0].events :: Decides(ts[0].events, last, ts[0].messages[id]) && DecidedBy(ts[0].messages[id], ts[k].messages[id], last)
  {
    LeftAfter(ts, fixes, nows, BATCH, now, k);
    assert Concerns(e, ts[0].messages[id].provider.value, ts[0].messages[id].sid.value);
    assert id in Eligible(ts[0], now) && id !in Left(ts[0], ts[k], now);
  }

  const GOOD := DeliveryEvent("twilio", "SM1", "delivered", None, None, 0)
  const BAD := GOOD.(status := "failed")
  const TIED := EMPTY.(
    messages := map["m" := Row("tenant", "key", "1", "t", [], None, Submitted, Some("twilio"), Some("SM1"), None, 0, 0)],
    events := [GOOD, BAD])

  lemma TiedIsEligible()
    ensures Eligible(TIED, BATCH) == {"m"}
  {
    assert TIED.events[0] == GOOD && Concerns(GOOD, "twilio", "SM1");
  }

  /** With two terminal events received at the same time, either verdict is a possible result. */
  lemma TiesLeaveAChoice(e: DeliveryEvent)
    requires e == GOOD || e == BAD
    ensures ToFix(TIED, BATCH, BATCH, map["m" := e])
  {
    TiedIsEligible();
    assert TIED.events[0] == GOOD && TIED.events[1] == BAD;
    assert Decides(TIED.events, e, TIED.messages["m"]);
  }
}
