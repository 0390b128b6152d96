/** The store: the tables kept in place, one method per statement.  Each method is proved to do
    what its statement's function on table values says. */
module Store {
  import opened Boundary
  import opened Tables
  import T = Tables
  import W = Processor

  /** Which calls of the cap transaction report an error; `lostAck` is a commit that takes
      effect although its caller sees an error. */
  datatype TxFaults = TxFaults(begin: bool, upsert: bool, undo: bool, commit: bool, lostAck: bool)

  class Store {
    var messages: map<MessageId, Row>
    var byKey: map<(string, string), MessageId>
    var caps: map<Bucket, int>
    var attempts: seq<Attempt>
    var events: seq<DeliveryEvent>

    function Snapshot(): Tables
      reads this
    {
      Tables(messages, byKey, caps, attempts, events)
    }

    ghost predicate Valid()
      reads this
    {
      Indexed(Snapshot())
    }

    constructor ()
      ensures Valid() && Snapshot() == EMPTY
    {
      messages, byKey, caps, attempts, events := map[], map[], map[], [], [];
    }

    method FindMessageByIdempotency(tenant: string, key: string) returns (r: Option<(MessageId, State)>)
      requires Valid()
      ensures r == FindByKey(Snapshot(), tenant, key)
      ensures r.Some? ==> r.value.0 in messages && messages[r.value.0].tenant == tenant
                          && messages[r.value.0].key == key && messages[r.value.0].state == r.value.1
      ensures r.None? ==> forall id <- messages :: messages[id].tenant != tenant || messages[id].key != key
    {
      if (tenant, key) in byKey {
        var id := byKey[(tenant, key)];
        r := Some((id, messages[id].state));
      } else {
        r := None;
      }
    }

    /** What a worker reads of a row, NULLs as empty strings; without a row, an error. */
    method GetMessageForWorker(id: MessageId) returns (r: Option<W.Message>)
      ensures r.Some? <==> id in messages
      ensures r.Some? ==>
                var m, row := r.value, messages[id];
                && m.tenant == row.tenant && m.to == row.phone && m.template == row.template && m.vars == row.vars && m.state == row.state
                && (row.sid.None? ==> m.sid == "") && (row.sid.Some? ==> row.sid == Some(m.sid))
    {
      if id !in messages { return None; }
      var row := messages[id];
      r := Some(W.Message(row.tenant, row.phone, row.template, row.state, if row.sid.None? then "" else row.sid.value, row.vars));
    }

    /** Fails exactly when the id or the (tenant, key) pair is taken. */
    method InsertMessage(id: MessageId, r: Row) returns (ok: bool)
      requires Valid()
      modifies this
      ensures Valid()
      ensures ok <==> old(id !in messages && forall n <- messages :: messages[n].tenant != r.tenant || messages[n].key != r.key)
      ensures Some(Snapshot()) == if ok then T.InsertMessage(old(Snapshot()), id, r) else Some(old(Snapshot()))
      ensures messages == if ok then old(messages)[id := r] else old(messages)
      ensures caps == old(caps) && attempts == old(attempts) && events == old(events)
    {
      if id in messages || (r.tenant, r.key) in byKey { return false; }
      messages := messages[id := r];
      byKey := byKey[(r.tenant, r.key) := id];
      ok := true;
    }

    /** Nothing but the message rows has changed. */
    twostate predicate OnlyMessages()
      reads this
    {
      byKey == old(byKey) && caps == old(caps) && attempts == old(attempts) && events == old(events)
    }

    method MarkMessageState(id: MessageId, state: State, lastError: string, now: int)
      requires Valid()
      modifies this
      ensures Valid() && Snapshot() == T.MarkMessageState(old(Snapshot()), id, state, lastError, now)
      ensures OnlyMessages() && messages ==
                if id !in old(messages) then old(messages)
                else old(messages)[id := old(messages)[id].(state := state, lastError := if lastError == "" then None else Some(lastError), updatedAt := now)]
    {
      if id in messages {
        messages := messages[id := messages[id].(state := state, lastError := NullIfEmpty(lastError), updatedAt := now)];
      }
    }

    method SetProviderDetails(id: MessageId, provider: string, sid: string, state: State, now: int)
      requires Valid()
      modifies this
      ensures Valid() && Snapshot() == T.SetProviderDetails(old(Snapshot()), id, provider, sid, state, now)
      ensures OnlyMessages() && messages ==
                if id !in old(messages) then old(messages)
                else old(messages)[id := old(messages)[id].(provider := Some(provider), sid := Some(sid), state := state, updatedAt := now)]
    {
      if id in messages {
        messages := messages[id := messages[id].(provider := Some(provider), sid := Some(sid), state := state, updatedAt := now)];
      }
    }

    method ClaimMessage(id: MessageId, now: int, staleAfter: int) returns (claimed: bool)
      requires Valid()
      modifies this
      ensures Valid() && Snapshot() == T.ClaimMessage(old(Snapshot()), id, now, staleAfter)
      ensures claimed <==> old(Claims(Snapshot(), id, now, staleAfter))
      ensures claimed <==> id in old(messages) && (old(messages)[id].state == Queued ||
                                                   (old(messages)[id].state == Processing && old(messages)[id].updatedAt < now - staleAfter))
      ensures OnlyMessages() && messages ==
                if claimed then old(messages)[id := old(messages)[id].(state := Processing, updatedAt := now)] else old(messages)
    {
      var staleBefore := now - staleAfter;
      if id in messages && (messages[id].state.Queued? || (messages[id].state.Processing? && messages[id].updatedAt < staleBefore)) {
        messages := messages[id := messages[id].(state := Processing, updatedAt := now)];
        return true;
      }
      claimed := false;
    }

    method UpdateMessageByProviderMsgID(provider: string, sid: string, state: State, lastError: string, now: int) returns (updated: bool)
      requires Valid()
      modifies this
      ensures Valid() && Snapshot() == UpdateByProviderMsgID(old(Snapshot()), provider, sid, state, lastError, now)
      ensures updated <==> old(AnyMatch(Snapshot(), provider, sid))
      ensures OnlyMessages() && Updated(old(messages), messages, provider, sid, state, lastError, now, updated)
    {
      RestatingKeepsIndex(Snapshot(), provider, sid, state, lastError, now);
      RestatedIsUpdated(messages, provider, sid, state, lastError, now);
      messages, updated := UpdateRows(messages, provider, sid, state, lastError, now);
    }

    /** The statement in its own words: each row of the provider message has the state, error and time,
        every other row is as it was, and `updated` says whether there was one. */
    static ghost predicate Updated(before: map<MessageId, Row>, after: map<MessageId, Row>, provider: string, sid: string,
                                   state: State, lastError: string, now: int, updated: bool)
    {
      && after.Keys == before.Keys
      && (forall id <- before :: after[id] ==
            if before[id].provider == Some(provider) && before[id].sid == Some(sid)
            then before[id].(state := state, lastError := if lastError == "" then None else Some(lastError), updatedAt := now)
            else before[id])
      && (updated <==> exists id <- before :: before[id].provider == Some(provider) && before[id].sid == Some(sid))
    }

    static lemma RestatedIsUpdated(before: map<MessageId, Row>, provider: string, sid: string, state: State, lastError: string, now: int)
      ensures Updated(before, RestateMatching(before, provider, sid, state, lastError, now), provider, sid, state, lastError, now,
                      exists id <- before :: Matches(before[id], provider, sid))
    {
      if id :| id in before && before[id].provider == Some(provider) && before[id].sid == Some(sid) {
        assert Matches(before[id], provider, sid);
      }
    }

    /** Row by row, as the statement visits them; `updated` says whether any row matched. */
    static method UpdateRows(before: map<MessageId, Row>, provider: string, sid: string, state: State, lastError: string, now: int)
      returns (after: map<MessageId, Row>, updated: bool)
      ensures after == RestateMatching(before, provider, sid, state, lastError, now)
      ensures updated <==> exists id <- before :: Matches(before[id], provider, sid)
    {
      var todo := before.Keys;
      after, updated := before, false;
      while todo != {}
        invariant Visited(before, provider, sid, state, lastError, now, todo, after, updated)
        decreases todo
      {
        var id :| id in todo;
        VisitOne(before, provider, sid, state, lastError, now, todo, after, updated, id);
        if after[id].provider == Some(provider) && after[id].sid == Some(sid) {
          after := after[id := after[id].(state := state, lastError := NullIfEmpty(lastError), updatedAt := now)];
          updated := true;
        }
        todo := todo - {id};
      }
    }

    /** All rows but `todo` have been visited: `after` has them restated where they match. */
    static ghost predicate Visited(before: map<MessageId, Row>, provider: string, sid: string, state: State, lastError: string, now: int,
                                   todo: set<MessageId>, after: map<MessageId, Row>, updated: bool)
    {
      && after.Keys == before.Keys && todo <= before.Keys
      && (forall id <- todo :: after[id] == before[id])
      && (forall id <- before | id !in todo ::
            after[id] == (if Matches(before[id], provider, sid) then Restated(before[id], state, lastError, now) else before[id]))
      && (updated <==> exists id <- before :: id !in todo && Matches(before[id], provider, sid))
    }

    static lemma VisitOne(before: map<MessageId, Row>, provider: string, sid: string, state: State, lastError: string, now: int,
                          todo: set<MessageId>, after: map<MessageId, Row>, updated: bool, id: MessageId)
      requires Visited(before, provider, sid, state, lastError, now, todo, after, updated) && id in todo
      ensures var found := Matches(before[id], provider, sid);
              after[id] == before[id]
              && Visited(before, provider, sid, state, lastError, now, todo - {id},
                         if found then after[id := Restated(before[id], state, lastError, now)] else after, updated || found)
    {
    }

    method InsertAttempt(a: Attempt)
      requires Valid()
      modifies this
      ensures Valid() && Snapshot() == T.InsertAttempt(old(Snapshot()), a)
      ensures Snapshot() == old(Snapshot()).(attempts := old(attempts) + [a])
    {
      attempts := attempts + [a];
    }

    method InsertDeliveryEvent(e: DeliveryEvent)
      requires Valid()
      modifies this
      ensures Valid() && Snapshot() == T.InsertDeliveryEvent(old(Snapshot()), e)
      ensures Snapshot() == old(Snapshot()).(events := old(events) + [e])
    {
      events := events + [e];
    }

    /** The cap transaction run alone: upsert, compare, undo if over the cap, commit.  Either nothing
        happens and an error is reported, or the whole amounts to one test-and-increment; a failed
        undo aborts the transaction, so then nothing happens.  An error never allows a send. */
    method IncrementDailyCap(tenant: string, phone: string, now: int, maxPerDay: int, faults: TxFaults)
      returns (ok: bool, allowed: bool, newCount: int)
      requires Valid()
      modifies this
      ensures Valid()
      ensures var b := Bucket(tenant, phone, DayOf(now)); var (u, admitted) := TestAndIncrement(old(Snapshot()), b, maxPerDay);
              && (Snapshot() == old(Snapshot()) || Snapshot() == u)
              && (ok ==> Snapshot() == u && allowed == admitted && newCount == CapCount(u, b))
              && (!ok ==> !allowed && newCount == 0)
              && (faults.undo && !admitted ==> !ok && Snapshot() == old(Snapshot()))
      ensures var b := Bucket(tenant, phone, DayOf(now)); var count := if b in old(caps) then old(caps)[b] else 0;
              && Snapshot() == old(Snapshot()).(caps := caps)
              && (ok ==> (allowed <==> count < maxPerDay) && newCount == (if allowed then count + 1 else count) && caps == old(caps)[b := newCount])
              && (!ok ==> caps == old(caps) || caps == old(caps)[b := if count < maxPerDay then count + 1 else count])
    {
      var b := Bucket(tenant, phone, DayOf(now));
      if faults.begin { return false, false, 0; }
      if faults.upsert { return false, false, 0; }
      // The transaction's own view of the row; nobody sees it before the commit.
      var count := (if b in caps then caps[b] else 0) + 1;
      newCount := count;
      allowed := newCount <= maxPerDay;
      var aborted := false;
      if !allowed {
        if faults.undo { aborted := true; } else { count := count - 1; }
      }
      if aborted || (faults.commit && !faults.lostAck) { return false, false, 0; }
      caps := caps[b := count];
      if faults.commit { return false, false, 0; }
      if !allowed { return true, false, newCount - 1; }
      return true, true, newCount;
    }
  }
}
