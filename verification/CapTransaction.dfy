/** Many cap transactions at once.  The upsert locks its row until commit or rollback, so
    interleaved transactions amount to atomic test-and-increments in commit order. */
module CapTransaction {
  import opened Tables

  datatype Outcome = Allowed(count: int) | Denied(count: int) | Errored

  datatype Phase =
    | Begun
    | Upserted(count: int)   // the count the upsert returned
    | Undone(count: int)
    | Aborted                // the undo failed; the code still goes on to commit
    | Ended(outcome: Outcome)

  datatype Tx = Tx(bucket: Bucket, phase: Phase)

  datatype Fate = Commits | Rejects | LosesAck

  /** `admitted[b]`: the transactions whose increment took effect, in commit order. */
  datatype Db = Db(t: Tables, locks: map<Bucket, nat>, txs: map<nat, Tx>, admitted: map<Bucket, seq<nat>>)

  datatype Event =
    | Begin(tx: nat, bucket: Bucket)
    | Upsert(tx: nat, ok: bool)
    | Undo(tx: nat, ok: bool)
    | Commit(tx: nat, fate: Fate)
    | Abandon(tx: nat)   // connection lost or process gone: rolled back

  function Admitted(s: Db, b: Bucket): seq<nat> {
    if b in s.admitted then s.admitted[b] else []
  }

  function WithPhase(s: Db, x: nat, phase: Phase): Db
    requires x in s.txs
  {
    s.(txs := s.txs[x := s.txs[x].(phase := phase)])
  }

  /** The end of transaction `x`: its lock, if it has it, is released. */
  function End(s: Db, x: nat, outcome: Outcome): Db
    requires x in s.txs
  {
    var b := s.txs[x].bucket;
    var locks := if b in s.locks && s.locks[b] == x then s.locks - {b} else s.locks;
    WithPhase(s, x, Ended(outcome)).(locks := locks)
  }

  /** Writes `count` and ends; the caller may or may not hear of it. */
  function Write(s: Db, x: nat, count: int, fate: Fate, outcome: Outcome): Db
    requires x in s.txs
  {
    var b := s.txs[x].bucket;
    if fate.Rejects? then End(s, x, Errored)
    else End(s, x, if fate.Commits? then outcome else Errored).(
           t := s.t.(caps := s.t.caps[b := count]),
           admitted := if outcome.Allowed? then s.admitted[b := Admitted(s, b) + [x]] else s.admitted)
  }

  function Apply(maxPerDay: int, s: Db, e: Event): Db {
    match e
    case Begin(x, b) => if x in s.txs then s else s.(txs := s.txs[x := Tx(b, Begun)])
    case Upsert(x, ok) =>
      if x !in s.txs || !s.txs[x].phase.Begun? then s
      else if !ok then End(s, x, Errored)
      else if s.txs[x].bucket in s.locks then s   // waits for the row lock
      else WithPhase(s, x, Upserted(CapCount(s.t, s.txs[x].bucket) + 1)).(locks := s.locks[s.txs[x].bucket := x])
    case Undo(x, ok) =>
      if x !in s.txs || !s.txs[x].phase.Upserted? || s.txs[x].phase.count <= maxPerDay then s
      else WithPhase(s, x, if ok then Undone(s.txs[x].phase.count) else Aborted)
    case Commit(x, fate) =>
      if x !in s.txs then s else
      (match s.txs[x].phase
       case Upserted(n) => if n <= maxPerDay then Write(s, x, n, fate, Allowed(n)) else s
       case Undone(n) => Write(s, x, n - 1, fate, Denied(n - 1))
       case Aborted => End(s, x, Errored)
       case _ => s)
    case Abandon(x) => if x in s.txs && !s.txs[x].phase.Ended? then End(s, x, Errored) else s
  }

  function Run(maxPerDay: int, s: Db, es: seq<Event>): Db
    decreases |es|
  {
    if es == [] then s else Run(maxPerDay, Apply(maxPerDay, s, es[0]), es[1..])
  }

  const START := Db(EMPTY, map[], map[], map[])

  // ----- invariant

  predicate InRow(phase: Phase) {
    phase.Upserted? || phase.Undone? || phase.Aborted?
  }

  ghost predicate TxOk(maxPerDay: int, s: Db, x: nat)
    requires x in s.txs
  {
    var tx := s.txs[x];
    && (InRow(tx.phase) ==> tx.bucket in s.locks && s.locks[tx.bucket] == x)
    && (tx.phase.Upserted? ==> tx.phase.count == CapCount(s.t, tx.bucket) + 1)
    && (tx.phase.Undone? ==> tx.phase.count == CapCount(s.t, tx.bucket) + 1 && maxPerDay < tx.phase.count)
    && (tx.phase.Ended? && tx.phase.outcome.Allowed? ==>
          && 1 <= tx.phase.outcome.count <= |Admitted(s, tx.bucket)|
          && Admitted(s, tx.bucket)[tx.phase.outcome.count - 1] == x)
    && (tx.phase.Ended? && tx.phase.outcome.Denied? ==> maxPerDay <= tx.phase.outcome.count)
  }

  ghost predicate CountsOk(maxPerDay: int, s: Db) {
    forall b: Bucket :: CapCount(s.t, b) == |Admitted(s, b)| <= Max0(maxPerDay)
  }

  ghost predicate Inv(maxPerDay: int, s: Db) {
    && CountsOk(maxPerDay, s)
    && (forall x <- s.txs :: TxOk(maxPerDay, s, x))
  }

  /** Another transaction's row view survives: only the holder of a lock can write the row. */
  lemma OthersOk(maxPerDay: int, s: Db, e: Event, x: nat)
    requires x in s.txs && TxOk(maxPerDay, s, x) && (e.tx in s.txs ==> TxOk(maxPerDay, s, e.tx)) && e.tx != x
    ensures TxOk(maxPerDay, Apply(maxPerDay, s, e), x)
  {
    if e.Commit? && e.tx in s.txs { OthersOkAtCommit(maxPerDay, s, e.tx, e.fate, x); }
  }

  lemma OthersOkAtCommit(maxPerDay: int, s: Db, y: nat, fate: Fate, x: nat)
    requires x in s.txs && y in s.txs && x != y && TxOk(maxPerDay, s, x) && TxOk(maxPerDay, s, y)
    ensures TxOk(maxPerDay, Apply(maxPerDay, s, Commit(y, fate)), x)
  {
  }

  lemma SelfOk(maxPerDay: int, s: Db, e: Event)
    requires CountsOk(maxPerDay, s) && (e.tx in s.txs ==> TxOk(maxPerDay, s, e.tx))
    ensures e.tx in Apply(maxPerDay, s, e).txs ==> TxOk(maxPerDay, Apply(maxPerDay, s, e), e.tx)
  {
    if e.tx in s.txs { assert CapCount(s.t, s.txs[e.tx].bucket) == |Admitted(s, s.txs[e.tx].bucket)|; }
  }

  lemma EventKeeps(maxPerDay: int, s: Db, e: Event)
    requires Inv(maxPerDay, s)
    ensures Inv(maxPerDay, Apply(maxPerDay, s, e))
  {
    var u := Apply(maxPerDay, s, e);
    forall x <- u.txs ensures TxOk(maxPerDay, u, x) {
      if x == e.tx { SelfOk(maxPerDay, s, e); } else { OthersOk(maxPerDay, s, e, x); }
    }
    CountsKeep(maxPerDay, s, e);
  }

  lemma CountsKeep(maxPerDay: int, s: Db, e: Event)
    requires CountsOk(maxPerDay, s) && (e.tx in s.txs ==> TxOk(maxPerDay, s, e.tx))
    ensures CountsOk(maxPerDay, Apply(maxPerDay, s, e))
  {
    var u := Apply(maxPerDay, s, e);
    forall b ensures CapCount(u.t, b) == |Admitted(u, b)| <= Max0(maxPerDay) {
      assert CapCount(s.t, b) == |Admitted(s, b)| <= Max0(maxPerDay);
    }
  }

  lemma {:induction false} RunKeeps(maxPerDay: int, s: Db, es: seq<Event>)
    requires Inv(maxPerDay, s)
    ensures Inv(maxPerDay, Run(maxPerDay, s, es))
    decreases |es|
  {
    if es != [] {
      EventKeeps(maxPerDay, s, es[0]);
      RunKeeps(maxPerDay, Apply(maxPerDay, s, es[0]), es[1..]);
    }
  }

  // ----- what it amounts to

  /** The answer the atomic operation would give. */
  function AtomicOutcome(t: Tables, b: Bucket, maxPerDay: int): Outcome {
    if TestAndIncrement(t, b, maxPerDay).1 then Allowed(CapCount(t, b) + 1) else Denied(CapCount(t, b))
  }

  /** Every step of every transaction leaves the committed counts alone, or is one atomic
      test-and-increment; and a call that returns without error has had its commit be such a step,
      with that step's answer.  (A commit whose acknowledgement is lost is one too, but reports an error.) */
  lemma RefinesTestAndIncrement(maxPerDay: int, es: seq<Event>, e: Event)
    ensures var s := Run(maxPerDay, START, es); var u := Apply(maxPerDay, s, e);
            && (u.t == s.t || (e.tx in s.txs && u.t == TestAndIncrement(s.t, s.txs[e.tx].bucket, maxPerDay).0))
            && (e.tx in u.txs && u.txs[e.tx].phase.Ended? && !u.txs[e.tx].phase.outcome.Errored? && u != s
                && !(e.tx in s.txs && s.txs[e.tx].phase.Ended?) ==>
                  e.tx in s.txs && u.t == TestAndIncrement(s.t, s.txs[e.tx].bucket, maxPerDay).0
                  && u.txs[e.tx].phase.outcome == AtomicOutcome(s.t, s.txs[e.tx].bucket, maxPerDay))
  {
    RunKeeps(maxPerDay, START, es);
    var s := Run(maxPerDay, START, es);
    if e.tx in s.txs {
      assert TxOk(maxPerDay, s, e.tx);
      assert CapCount(s.t, s.txs[e.tx].bucket) == |Admitted(s, s.txs[e.tx].bucket)|;
    }
  }

  /** The committed count is the number of admissions and never exceeds max(0, MaxPerDay); the call
      that got count k is the k-th admission, so counts 1, 2, 3, ... are given out in commit order,
      each at most once. */
  lemma CountsInCommitOrder(maxPerDay: int, es: seq<Event>, b: Bucket, x: nat, y: nat)
    ensures var s := Run(maxPerDay, START, es);
            && CapCount(s.t, b) == |Admitted(s, b)| <= Max0(maxPerDay)
            && (x in s.txs && s.txs[x].bucket == b && s.txs[x].phase.Ended? && s.txs[x].phase.outcome.Allowed? ==>
                  var k := s.txs[x].phase.outcome.count;
                  && 1 <= k <= |Admitted(s, b)| && Admitted(s, b)[k - 1] == x
                  && (y in s.txs && s.txs[y].bucket == b && s.txs[y].phase == s.txs[x].phase ==> x == y))
  {
    RunKeeps(maxPerDay, START, es);
    var s := Run(maxPerDay, START, es);
    assert CapCount(s.t, b) == |Admitted(s, b)|;
    if x in s.txs { assert TxOk(maxPerDay, s, x); }
    if y in s.txs { assert TxOk(maxPerDay, s, y); }
  }

  /** Only transactions that have ended are admitted. */
  ghost predicate AdmittedHaveEnded(s: Db) {
    forall b <- s.admitted, x <- s.admitted[b] :: x in s.txs && s.txs[x].phase.Ended?
  }

  lemma AdmittedStayEnded(maxPerDay: int, s: Db, e: Event)
    requires AdmittedHaveEnded(s)
    ensures AdmittedHaveEnded(Apply(maxPerDay, s, e))
  {
  }

  lemma {:induction false} EveryRunAdmitsEnded(maxPerDay: int, s: Db, es: seq<Event>)
    requires AdmittedHaveEnded(s)
    ensures AdmittedHaveEnded(Run(maxPerDay, s, es))
    decreases |es|
  {
    if es != [] {
      AdmittedStayEnded(maxPerDay, s, es[0]);
      EveryRunAdmitsEnded(maxPerDay, Apply(maxPerDay, s, es[0]), es[1..]);
    }
  }

  /** Transaction `x` has counted nothing, and ends with an error if it has ended. */
  ghost predicate CountsNothing(s: Db, x: nat) {
    && x in s.txs && (s.txs[x].phase.Aborted? || s.txs[x].phase == Ended(Errored))
    && (forall b <- s.admitted :: x !in s.admitted[b])
  }

  lemma StillCountsNothing(maxPerDay: int, s: Db, e: Event, x: nat)
    requires CountsNothing(s, x)
    ensures CountsNothing(Apply(maxPerDay, s, e), x)
  {
  }

  lemma {:induction false} CountsNothingForEver(maxPerDay: int, s: Db, es: seq<Event>, x: nat)
    requires CountsNothing(s, x)
    ensures CountsNothing(Run(maxPerDay, s, es), x)
    decreases |es|
  {
    if es != [] {
      StillCountsNothing(maxPerDay, s, es[0], x);
      CountsNothingForEver(maxPerDay, Apply(maxPerDay, s, es[0]), es[1..], x);
    }
  }

  /** In every run, a transaction whose undo failed is never among the admissions that make up a
      count, then or later, and never ends without an error. */
  lemma FailedUndoCommitsNothing(maxPerDay: int, past: seq<Event>, future: seq<Event>, x: nat)
    requires x in Run(maxPerDay, START, past).txs && Run(maxPerDay, START, past).txs[x].phase.Aborted?
    ensures CountsNothing(Run(maxPerDay, Run(maxPerDay, START, past), future), x)
  {
    EveryRunAdmitsEnded(maxPerDay, START, past);
    CountsNothingForEver(maxPerDay, Run(maxPerDay, START, past), future, x);
  }
}
