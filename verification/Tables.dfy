/** The database tables as values, one function per SQL statement.  Times are
    milliseconds on the clock of whoever passes them. */
module Tables {
  import opened Boundary

  type MessageId = string

  /** A Go map as one `range` statement visits it: the pairs in visiting order. */
  type Vars = seq<(string, string)>

  datatype State = Queued | Processing | Suppressed | Submitted | Delivered | Failed

  datatype Row = Row(
    tenant: string, key: string, phone: string, template: string, vars: Vars, campaign: Option<string>,
    state: State, provider: Option<string>, sid: Option<string>, lastError: Option<string>,
    createdAt: int, updatedAt: int)

  /** Primary key of `send_caps_daily`. */
  datatype Bucket = Bucket(tenant: string, phone: string, day: int)

  datatype Attempt = Attempt(id: MessageId, sid: Option<string>, httpStatus: int, failed: bool)

  datatype DeliveryEvent = DeliveryEvent(
    provider: string, sid: string, status: string, errorCode: Option<string>, payload: Option<string>, receivedAt: int)

  datatype Tables = Tables(
    messages: map<MessageId, Row>,
    byKey: map<(string, string), MessageId>,   // the UNIQUE (tenant_id, idempotency_key) index
    caps: map<Bucket, int>,
    attempts: seq<Attempt>,
    events: seq<DeliveryEvent>)

  const EMPTY := Tables(map[], map[], map[], [], [])
  const DAY_MS := 86_400_000

  /** The index names exactly the rows, so no two rows share tenant and key. */
  ghost predicate Indexed(t: Tables) {
    && (forall id <- t.messages :: (t.messages[id].tenant, t.messages[id].key) in t.byKey
                                   && t.byKey[(t.messages[id].tenant, t.messages[id].key)] == id)
    && (forall k <- t.byKey :: t.byKey[k] in t.messages && (t.messages[t.byKey[k]].tenant, t.messages[t.byKey[k]].key) == k)
  }

  function NullIfEmpty(s: string): Option<string> {
    if s == "" then None else Some(s)
  }

  function OrEmpty(s: Option<string>): string {
    match s case None => "" case Some(v) => v
  }

  /** Whole UTC days since the clock's origin, rounding down for negative times too. */
  function DayOf(now: int): int {
    now / DAY_MS
  }

  /** A day is 24 hours. */
  lemma DayOfIs(now: int)
    ensures DayOf(now) * 86_400_000 <= now < (DayOf(now) + 1) * 86_400_000
  {
  }

  function FindByKey(t: Tables, tenant: string, key: string): Option<(MessageId, State)> {
    if (tenant, key) in t.byKey && t.byKey[(tenant, key)] in t.messages
    then Some((t.byKey[(tenant, key)], t.messages[t.byKey[(tenant, key)]].state))
    else None
  }

  /** `None` is a violated primary key or unique index. */
  function InsertMessage(t: Tables, id: MessageId, r: Row): Option<Tables> {
    if id in t.messages || (r.tenant, r.key) in t.byKey then None
    else Some(t.(messages := t.messages[id := r], byKey := t.byKey[(r.tenant, r.key) := id]))
  }

  function MarkMessageState(t: Tables, id: MessageId, state: State, lastError: string, now: int): Tables {
    if id in t.messages
    then t.(messages := t.messages[id := t.messages[id].(state := state, lastError := NullIfEmpty(lastError), updatedAt := now)])
    else t
  }

  function SetProviderDetails(t: Tables, id: MessageId, provider: string, sid: string, state: State, now: int): Tables {
    if id in t.messages
    then t.(messages := t.messages[id := t.messages[id].(provider := Some(provider), sid := Some(sid), state := state, updatedAt := now)])
    else t
  }

  predicate Claimable(r: Row, now: int, staleAfter: int) {
    r.state.Queued? || (r.state.Processing? && r.updatedAt < now - staleAfter)
  }

  predicate Claims(t: Tables, id: MessageId, now: int, staleAfter: int) {
    id in t.messages && Claimable(t.messages[id], now, staleAfter)
  }

  function ClaimMessage(t: Tables, id: MessageId, now: int, staleAfter: int): Tables {
    if Claims(t, id, now, staleAfter)
    then t.(messages := t.messages[id := t.messages[id].(state := Processing, updatedAt := now)])
    else t
  }

  function Max0(n: int): int {
    if n < 0 then 0 else n
  }

  function CapCount(t: Tables, b: Bucket): int {
    if b in t.caps then t.caps[b] else 0
  }

  /** What the cap transaction amounts to: admit and count, or leave the count as it is. */
  function TestAndIncrement(t: Tables, b: Bucket, maxPerDay: int): (r: (Tables, bool))
  {
    if CapCount(t, b) + 1 <= maxPerDay
    then (t.(caps := t.caps[b := CapCount(t, b) + 1]), true)
    else (t.(caps := t.caps[b := CapCount(t, b)]), false)
  }

  function InsertAttempt(t: Tables, a: Attempt): Tables {
    t.(attempts := t.attempts + [a])
  }

  function InsertDeliveryEvent(t: Tables, e: DeliveryEvent): Tables {
    t.(events := t.events + [e])
  }

  predicate Matches(r: Row, provider: string, sid: string) {
    r.provider == Some(provider) && r.sid == Some(sid)
  }

  function Restated(r: Row, state: State, lastError: string, now: int): Row {
    r.(state := state, lastError := NullIfEmpty(lastError), updatedAt := now)
  }

  function RestateMatching(rows: map<MessageId, Row>, provider: string, sid: string, state: State, lastError: string, now: int): map<MessageId, Row> {
    map id | id in rows :: if Matches(rows[id], provider, sid) then Restated(rows[id], state, lastError, now) else rows[id]
  }

  function UpdateByProviderMsgID(t: Tables, provider: string, sid: string, state: State, lastError: string, now: int): Tables {
    t.(messages := RestateMatching(t.messages, provider, sid, state, lastError, now))
  }

  predicate AnyMatch(t: Tables, provider: string, sid: string) {
    exists id <- t.messages :: Matches(t.messages[id], provider, sid)
  }

  // ----- the index survives every statement

  /** Rows stay, and keep tenant and key. */
  ghost predicate Keeps(t: Tables, u: Tables) {
    forall id <- t.messages :: id in u.messages && u.messages[id].tenant == t.messages[id].tenant && u.messages[id].key == t.messages[id].key
  }

  lemma InsertKeepsIndex(t: Tables, m: MessageId, r: Row)
    requires Indexed(t) && InsertMessage(t, m, r).Some?
    ensures Indexed(InsertMessage(t, m, r).value)
  {
  }

  /** Updates in place keep the index. */
  lemma UpdateKeepsIndex(t: Tables, u: Tables)
    requires Indexed(t) && u.byKey == t.byKey && u.messages.Keys == t.messages.Keys && Keeps(t, u)
    ensures Indexed(u)
  {
  }

  lemma RestatingKeepsIndex(t: Tables, provider: string, sid: string, state: State, lastError: string, now: int)
    requires Indexed(t)
    ensures Indexed(UpdateByProviderMsgID(t, provider, sid, state, lastError, now))
  {
    UpdateKeepsIndex(t, UpdateByProviderMsgID(t, provider, sid, state, lastError, now));
  }

  /** The callback's update reports success exactly when some row took the new state. */
  lemma UpdatedRowTakesState(t: Tables, provider: string, sid: string, state: State, lastError: string, now: int)
    ensures var u := UpdateByProviderMsgID(t, provider, sid, state, lastError, now);
            AnyMatch(t, provider, sid) <==>
              exists id <- u.messages :: u.messages[id].provider == Some(provider) && u.messages[id].sid == Some(sid) && u.messages[id].state == state && u.messages[id].updatedAt == now
                                         && u.messages[id].lastError == (if lastError == "" then None else Some(lastError))
  {
    var u := UpdateByProviderMsgID(t, provider, sid, state, lastError, now);
    if AnyMatch(t, provider, sid) {
      var id :| id in t.messages && Matches(t.messages[id], provider, sid);
      assert Matches(u.messages[id], provider, sid);
    }
  }
}
