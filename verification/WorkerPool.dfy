/** `PollConcurrent`: one producer, a bounded channel, a pool of workers, and shutdown, as a step
    system over every interleaving. */
module WorkerPool {

  datatype Body = Missing | Malformed | Job(id: string)

  /** A queue message; `receipt` names this delivery of it. */
  datatype Envelope = Envelope(receipt: nat, body: Body)

  datatype Producer = Checking | Receiving | Resting | Handing(hand: seq<Envelope>) | Stopped

  datatype Worker = Idle | Handling(m: Envelope) | Deleting(m: Envelope) | Exited

  datatype Caller = Listening | Draining | Returned

  /** `capacity` is workers * 2; `received`, `finished`, `dropped`, `deletions` and `succeeded` are history. */
  datatype Pool = Pool(
    capacity: nat, maxBatch: nat, cancelled: bool, producer: Producer, channel: seq<Envelope>, closed: bool,
    errors: nat, workers: seq<Worker>, caller: Caller,
    received: multiset<Envelope>, finished: multiset<Envelope>, dropped: multiset<Envelope>,
    deletions: multiset<Envelope>, succeeded: set<Envelope>)

  datatype Event =
    | Cancel
    | Check
    | ReceiveOk(batch: seq<Envelope>)
    | ReceiveError
    | Wake
    | Push
    | Quit              // the select sees the cancelled context
    | BatchDone
    | Take(i: nat)
    | Exit(i: nat)
    | Handle(i: nat, ok: bool)
    | Delete(i: nat)
    | Hear
    | Return

  function Start(workers: nat, maxBatch: nat): Pool
    requires workers > 0
  {
    Pool(2 * workers, maxBatch, false, Checking, [], false, 0, seq(workers, i => Idle), Listening,
         multiset{}, multiset{}, multiset{}, multiset{}, {})
  }

  predicate IsWorker(s: Pool, i: nat) {
    i < |s.workers|
  }

  ghost predicate AllExited(s: Pool) {
    forall i | 0 <= i < |s.workers| :: s.workers[i].Exited?
  }

  ghost predicate Enabled(s: Pool, e: Event) {
    match e
    case Cancel => !s.cancelled
    case Check => s.producer.Checking?
    case ReceiveOk(batch) => s.producer.Receiving? && |batch| <= s.maxBatch
                             && (forall m <- batch :: m !in s.received) && (forall i, j | 0 <= i < j < |batch| :: batch[i] != batch[j])
    case ReceiveError => s.producer.Receiving?
    case Wake => s.producer.Resting?
    case Push => s.producer.Handing? && s.producer.hand != [] && |s.channel| < s.capacity
    case Quit => s.producer.Handing? && s.producer.hand != [] && s.cancelled
    case BatchDone => s.producer == Handing([])
    case Take(i) => IsWorker(s, i) && s.workers[i].Idle? && s.channel != []
    case Exit(i) => IsWorker(s, i) && s.workers[i].Idle? && s.channel == [] && s.closed
    case Handle(i, _) => IsWorker(s, i) && s.workers[i].Handling?
    case Delete(i) => IsWorker(s, i) && s.workers[i].Deleting?
    case Hear => s.caller.Listening? && s.errors > 0
    case Return => s.caller.Draining? && AllExited(s)
  }

  /** The deferred close, after one non-blocking send of the context's error. */
  function Stop(s: Pool): Pool {
    s.(producer := Stopped, closed := true, errors := if s.errors == 0 then 1 else s.errors)
  }

  predicate Undecodable(m: Envelope) {
    !m.body.Job?
  }

  ghost function Apply(s: Pool, e: Event): Pool
    requires Enabled(s, e)
  {
    match e
    case Cancel => s.(cancelled := true)
    case Check => if s.cancelled then Stop(s) else s.(producer := Receiving)
    case ReceiveOk(batch) => s.(producer := Handing(batch), received := s.received + multiset(batch))
    case ReceiveError => s.(producer := Resting)
    case Wake => s.(producer := Checking)
    case Push => s.(producer := Handing(s.producer.hand[1..]), channel := s.channel + [s.producer.hand[0]])
    case Quit => Stop(s).(dropped := s.dropped + multiset(s.producer.hand))
    case BatchDone => s.(producer := Checking)
    case Take(i) => s.(channel := s.channel[1..], workers := s.workers[i := Handling(s.channel[0])])
    case Exit(i) => s.(workers := s.workers[i := Exited])
    case Handle(i, ok) =>
      var m := s.workers[i].m;
      if Undecodable(m) then s.(workers := s.workers[i := Deleting(m)])
      else if ok then s.(workers := s.workers[i := Deleting(m)], succeeded := s.succeeded + {m})
      else s.(workers := s.workers[i := Idle], finished := s.finished + multiset{m})
    case Delete(i) =>
      var m := s.workers[i].m;
      s.(workers := s.workers[i := Idle], finished := s.finished + multiset{m}, deletions := s.deletions + multiset{m})
    case Hear => s.(caller := Draining, errors := s.errors - 1)
    case Return => s.(caller := Returned)
  }

  /** `es` is a run from `s`: each event is possible when its turn comes. */
  ghost predicate Possible(s: Pool, es: seq<Event>)
    decreases |es|
  {
    es == [] || (Enabled(s, es[0]) && Possible(Apply(s, es[0]), es[1..]))
  }

  ghost function Run(s: Pool, es: seq<Event>): Pool
    requires Possible(s, es)
    decreases |es|
  {
    if es == [] then s else Run(Apply(s, es[0]), es[1..])
  }

  // ----- where a message is

  function HeldBy(w: Worker): multiset<Envelope> {
    match w
    case Handling(m) => multiset{m}
    case Deleting(m) => multiset{m}
    case _ => multiset{}
  }

  function Busy(ws: seq<Worker>): multiset<Envelope> {
    if ws == [] then multiset{} else HeldBy(ws[0]) + Busy(ws[1..])
  }

  function InHand(p: Producer): multiset<Envelope> {
    if p.Handing? then multiset(p.hand) else multiset{}
  }

  /** How often message `m` is found, counting every place it can be. */
  function Places(s: Pool, m: Envelope): nat {
    InHand(s.producer)[m] + multiset(s.channel)[m] + Busy(s.workers)[m] + s.finished[m] + s.dropped[m]
  }

  lemma Updated(ws: seq<Worker>, i: nat, w: Worker)
    requires i < |ws|
    ensures ws[i := w][1..] == if i == 0 then ws[1..] else ws[1..][i - 1 := w]
    ensures ws[i := w][0] == if i == 0 then w else ws[0]
  {
  }

  lemma {:induction false} BusyUpdate(ws: seq<Worker>, i: nat, w: Worker, m: Envelope)
    requires i < |ws|
    ensures Busy(ws[i := w])[m] + HeldBy(ws[i])[m] == Busy(ws)[m] + HeldBy(w)[m]
  {
    Updated(ws, i, w);
    if i > 0 { BusyUpdate(ws[1..], i - 1, w, m); }
  }

  lemma CountHead(ms: seq<Envelope>, m: Envelope)
    requires ms != []
    ensures multiset(ms)[m] == (if ms[0] == m then 1 else 0) + multiset(ms[1..])[m]
  {
    assert ms == [ms[0]] + ms[1..];
  }

  // ----- invariant

  /** Each received message is in exactly one place, exactly once. */
  ghost predicate Conserved(s: Pool) {
    forall m :: s.received[m] == Places(s, m) <= 1
  }

  /** A delivery may be deleted: it was undecodable, or its handler returned nil. */
  ghost predicate Deletable(s: Pool, m: Envelope) {
    !m.body.Job? || m in s.succeeded
  }

  /** The handler has been called, or never will be. */
  ghost predicate PastHandler(s: Pool, m: Envelope) {
    m !in InHand(s.producer) && m !in s.channel && forall i | 0 <= i < |s.workers| :: s.workers[i] != Handling(m)
  }

  /** Deletion has been attempted exactly once for each finished delivery that may be deleted, and for
      no other. */
  ghost predicate DeletesMatch(s: Pool) {
    forall m :: s.deletions[m] == if Deletable(s, m) then s.finished[m] else 0
  }

  ghost predicate SucceededArePast(s: Pool) {
    forall m <- s.succeeded :: m in s.received && PastHandler(s, m)
  }

  ghost predicate DeletesOk(s: Pool) {
    && DeletesMatch(s)
    && SucceededArePast(s)
    && (forall i | 0 <= i < |s.workers| :: s.workers[i].Deleting? ==> Deletable(s, s.workers[i].m))
  }

  ghost predicate ControlOk(s: Pool) {
    && |s.channel| <= s.capacity
    && s.capacity == 2 * |s.workers| && |s.workers| > 0
    && (s.closed <==> s.producer.Stopped?)
    && (s.producer.Stopped? ==> s.cancelled && s.errors == (if s.caller.Listening? then 1 else 0))
    && (!s.producer.Stopped? ==> s.errors == 0 && s.caller.Listening?)
    && (forall i | 0 <= i < |s.workers| :: s.workers[i].Exited? ==> s.closed && s.channel == [])
    && (s.caller.Returned? ==> AllExited(s))
  }

  ghost predicate Inv(s: Pool) {
    Conserved(s) && DeletesOk(s) && ControlOk(s)
  }

  lemma TakeConserves(s: Pool, e: Event, m: Envelope)
    requires Enabled(s, e) && (e.Take? || e.Exit?)
    ensures Places(Apply(s, e), m) == Places(s, m)
  {
    BusyUpdate(s.workers, e.i, Apply(s, e).workers[e.i], m);
    if e.Take? { CountHead(s.channel, m); }
  }

  lemma HandleConserves(s: Pool, i: nat, ok: bool, m: Envelope)
    requires Enabled(s, Handle(i, ok))
    ensures Places(Apply(s, Handle(i, ok)), m) == Places(s, m)
  {
    var x := s.workers[i].m;
    BusyUpdate(s.workers, i, if Undecodable(x) || ok then Deleting(x) else Idle, m);
  }

  lemma DeleteConserves(s: Pool, i: nat, m: Envelope)
    requires Enabled(s, Delete(i))
    ensures Places(Apply(s, Delete(i)), m) == Places(s, m)
  {
    BusyUpdate(s.workers, i, Idle, m);
  }

  lemma PlacesFollow(s: Pool, e: Event, m: Envelope)
    requires Enabled(s, e)
    ensures Places(Apply(s, e), m) - Places(s, m) == Apply(s, e).received[m] - s.received[m]
  {
    match e
    case Take(_) => TakeConserves(s, e, m);
    case Exit(_) => TakeConserves(s, e, m);
    case Handle(i, ok) => HandleConserves(s, i, ok, m);
    case Delete(i) => DeleteConserves(s, i, m);
    case _ => OtherEventConserves(s, e, m);
  }

  lemma OtherEventConserves(s: Pool, e: Event, m: Envelope)
    requires Enabled(s, e) && !(e.Take? || e.Exit? || e.Handle? || e.Delete?)
    ensures Places(Apply(s, e), m) - Places(s, m) == Apply(s, e).received[m] - s.received[m]
  {
    if e.Push? { CountHead(s.producer.hand, m); }
  }

  lemma EventConserves(s: Pool, e: Event)
    requires Conserved(s) && Enabled(s, e)
    ensures Conserved(Apply(s, e))
  {
    var u := Apply(s, e);
    forall m ensures u.received[m] == Places(u, m) <= 1 {
      PlacesFollow(s, e, m);
      if e.ReceiveOk? { FreshBatch(s.received, e.batch, m); }
    }
  }

  lemma FreshBatch(received: multiset<Envelope>, batch: seq<Envelope>, m: Envelope)
    requires received[m] <= 1
    requires forall m <- batch :: m !in received
    requires forall i, j | 0 <= i < j < |batch| :: batch[i] != batch[j]
    ensures (received + multiset(batch))[m] <= 1
  {
    OnceEach(batch, m);
    if m in multiset(batch) { assert m in batch; }
  }

  lemma {:induction false} OnceEach(batch: seq<Envelope>, m: Envelope)
    requires forall i, j | 0 <= i < j < |batch| :: batch[i] != batch[j]
    ensures multiset(batch)[m] <= 1
  {
    if batch != [] {
      OnceEach(batch[1..], m);
      CountHead(batch, m);
      assert m in multiset(batch[1..]) <==> m in batch[1..];
    }
  }

  lemma EventKeeps(s: Pool, e: Event)
    requires Inv(s) && Enabled(s, e)
    ensures Inv(Apply(s, e))
  {
    EventConserves(s, e);
    EventKeepsControl(s, e);
    EventKeepsDeletes(s, e);
  }

  lemma EventKeepsControl(s: Pool, e: Event)
    requires ControlOk(s) && Enabled(s, e)
    ensures ControlOk(Apply(s, e))
  {
    if e.Take? || e.Exit? || e.Handle? || e.Delete? {
      WorkerKeepsControl(s, e);
    } else {
      OthersKeepControl(s, e);
    }
  }

  /** What a worker's event changes: its own place, and the head of the channel if it takes that. */
  lemma WorkerChanges(s: Pool, e: Event)
    requires Enabled(s, e) && (e.Take? || e.Exit? || e.Handle? || e.Delete?)
    ensures var u := Apply(s, e);
            && u.workers == s.workers[e.i := u.workers[e.i]] && !s.workers[e.i].Exited?
            && (u.workers[e.i].Exited? ==> s.closed && s.channel == [])
            && (u.channel == s.channel || (s.channel != [] && u.channel == s.channel[1..]))
            && (u.capacity, u.closed, u.cancelled, u.errors) == (s.capacity, s.closed, s.cancelled, s.errors)
            && u.producer == s.producer && u.caller == s.caller
  {
  }

  lemma WorkerKeepsControl(s: Pool, e: Event)
    requires ControlOk(s) && Enabled(s, e) && (e.Take? || e.Exit? || e.Handle? || e.Delete?)
    ensures ControlOk(Apply(s, e))
  {
    WorkerChanges(s, e);
    ControlFrame(s, Apply(s, e), e.i);
  }

  lemma ControlFrame(s: Pool, u: Pool, i: nat)
    requires ControlOk(s) && i < |s.workers| == |u.workers| && u.workers == s.workers[i := u.workers[i]] && !s.workers[i].Exited?
    requires u.workers[i].Exited? ==> s.closed && s.channel == []
    requires u.channel == s.channel || (s.channel != [] && u.channel == s.channel[1..])
    requires (u.capacity, u.closed, u.cancelled, u.errors) == (s.capacity, s.closed, s.cancelled, s.errors)
    requires u.producer == s.producer && u.caller == s.caller
    ensures ControlOk(u)
  {
  }

  lemma OthersKeepControl(s: Pool, e: Event)
    requires ControlOk(s) && Enabled(s, e) && !(e.Take? || e.Exit? || e.Handle? || e.Delete?)
    ensures ControlOk(Apply(s, e))
  {
  }

  lemma {:induction false} HeldIsBusy(ws: seq<Worker>, i: nat, m: Envelope)
    requires i < |ws|
    ensures HeldBy(ws[i])[m] <= Busy(ws)[m]
  {
    if i > 0 { HeldIsBusy(ws[1..], i - 1, m); }
  }

  /** A message with a worker is nowhere else. */
  lemma OnlyThere(s: Pool, i: nat, m: Envelope)
    requires Conserved(s) && i < |s.workers| && m in HeldBy(s.workers[i])
    ensures m in s.received && s.finished[m] == 0 && m !in InHand(s.producer) && m !in s.channel
    ensures forall j | 0 <= j < |s.workers| && j != i :: m !in HeldBy(s.workers[j])
  {
    assert s.received[m] == Places(s, m) <= 1;
    BusyUpdate(s.workers, i, Idle, m);
    assert m in s.channel <==> m in multiset(s.channel);
    forall j | 0 <= j < |s.workers| && j != i ensures m !in HeldBy(s.workers[j]) {
      HeldIsBusy(s.workers[i := Idle], j, m);
    }
  }

  lemma EventKeepsDeletes(s: Pool, e: Event)
    requires Conserved(s) && DeletesOk(s) && Enabled(s, e)
    ensures DeletesOk(Apply(s, e))
  {
    match e
    case Delete(i) => DeleteKeepsDeletes(s, i);
    case Handle(i, ok) => HandleKeepsDeletes(s, i, ok);
    case Take(i) => TakeKeepsDeletes(s, i);
    case _ => OthersKeepDeletes(s, e);
  }

  lemma OthersKeepDeletes(s: Pool, e: Event)
    requires DeletesOk(s) && Enabled(s, e) && !(e.Take? || e.Handle? || e.Delete?)
    ensures DeletesOk(Apply(s, e))
  {
    OthersKeepPast(s, e);
    MatchFrame(s, Apply(s, e));
  }

  /** What happens outside the workers takes no message back to a handler. */
  lemma OthersKeepPast(s: Pool, e: Event)
    requires SucceededArePast(s) && Enabled(s, e) && !(e.Take? || e.Handle? || e.Delete?)
    ensures SucceededArePast(Apply(s, e))
  {
    var u := Apply(s, e);
    forall m <- u.succeeded ensures m in u.received && PastHandler(u, m) {
      assert m in s.received && PastHandler(s, m);
      if e.ReceiveOk? { assert m !in e.batch; }
    }
  }

  lemma MatchFrame(s: Pool, u: Pool)
    requires DeletesMatch(s) && u.deletions == s.deletions && u.finished == s.finished && u.succeeded == s.succeeded
    ensures DeletesMatch(u)
  {
    forall m ensures u.deletions[m] == if Deletable(u, m) then u.finished[m] else 0 {
      assert s.deletions[m] == if Deletable(s, m) then s.finished[m] else 0;
    }
  }

  lemma TakeKeepsDeletes(s: Pool, i: nat)
    requires DeletesOk(s) && Enabled(s, Take(i))
    ensures DeletesOk(Apply(s, Take(i)))
  {
    var u := Apply(s, Take(i));
    forall m <- u.succeeded ensures m in u.received && PastHandler(u, m) {
      assert PastHandler(s, m) && s.channel[0] in s.channel;
    }
    MatchFrame(s, u);
  }

  /** Worker `i` puts its message away. */
  lemma PastFrame(s: Pool, u: Pool, i: nat, m: Envelope)
    requires SucceededArePast(s) && i < |s.workers| == |u.workers| && u.workers == s.workers[i := u.workers[i]] && !u.workers[i].Handling?
    requires u.received == s.received && u.producer == s.producer && u.channel == s.channel
    requires u.succeeded <= s.succeeded + {m} && m in s.received && m !in InHand(s.producer) && m !in s.channel
    requires forall j | 0 <= j < |s.workers| && j != i :: s.workers[j] != Handling(m)
    ensures SucceededArePast(u)
  {
    forall n <- u.succeeded ensures n in u.received && PastHandler(u, n) {
      assert n == m || PastHandler(s, n);
    }
  }

  lemma HandleMatches(s: Pool, u: Pool, m: Envelope, ok: bool)
    requires DeletesMatch(s) && s.finished[m] == 0 && m !in s.succeeded && u.deletions == s.deletions
    requires u.succeeded == if m.body.Job? && ok then s.succeeded + {m} else s.succeeded
    requires u.finished == if m.body.Job? && !ok then s.finished + multiset{m} else s.finished
    ensures DeletesMatch(u)
  {
    forall n ensures u.deletions[n] == if Deletable(u, n) then u.finished[n] else 0 {
      assert s.deletions[n] == if Deletable(s, n) then s.finished[n] else 0;
    }
  }

  lemma DeletingAreDeletable(s: Pool, i: nat, ok: bool)
    requires Enabled(s, Handle(i, ok)) && forall j | 0 <= j < |s.workers| :: s.workers[j].Deleting? ==> Deletable(s, s.workers[j].m)
    ensures var u := Apply(s, Handle(i, ok)); forall j | 0 <= j < |u.workers| :: u.workers[j].Deleting? ==> Deletable(u, u.workers[j].m)
  {
  }

  lemma HandleKeepsDeletes(s: Pool, i: nat, ok: bool)
    requires Conserved(s) && DeletesOk(s) && Enabled(s, Handle(i, ok))
    ensures DeletesOk(Apply(s, Handle(i, ok)))
  {
    var u, m := Apply(s, Handle(i, ok)), s.workers[i].m;
    assert m !in s.succeeded by { assert m in s.succeeded ==> PastHandler(s, m); }
    OnlyThere(s, i, m);
    HandleMatches(s, u, m, ok);
    HandledAlone(s, i, m);
    DeletingAreDeletable(s, i, ok);
    PastFrame(s, u, i, m);
  }

  lemma HandledAlone(s: Pool, i: nat, m: Envelope)
    requires Conserved(s) && i < |s.workers| && m in HeldBy(s.workers[i])
    ensures forall j | 0 <= j < |s.workers| && j != i :: s.workers[j] != Handling(m)
  {
    OnlyThere(s, i, m);
    forall j | 0 <= j < |s.workers| && j != i ensures s.workers[j] != Handling(m) {
      assert m !in HeldBy(s.workers[j]);
    }
  }

  lemma DeleteMatches(s: Pool, u: Pool, m: Envelope)
    requires DeletesMatch(s) && Deletable(s, m) && u.succeeded == s.succeeded
    requires u.deletions == s.deletions + multiset{m} && u.finished == s.finished + multiset{m}
    ensures DeletesMatch(u)
  {
    forall n ensures u.deletions[n] == if Deletable(u, n) then u.finished[n] else 0 {
      assert s.deletions[n] == if Deletable(s, n) then s.finished[n] else 0;
    }
  }

  lemma DeleteKeepsDeletes(s: Pool, i: nat)
    requires Conserved(s) && DeletesOk(s) && Enabled(s, Delete(i))
    ensures DeletesOk(Apply(s, Delete(i)))
  {
    var u, m := Apply(s, Delete(i)), s.workers[i].m;
    DeleteMatches(s, u, m);
    OnlyThere(s, i, m);
    HandledAlone(s, i, m);
    PastFrame(s, u, i, m);
  }

  lemma {:induction false} RunKeeps(s: Pool, es: seq<Event>)
    requires Inv(s) && Possible(s, es)
    ensures Inv(Run(s, es))
    decreases |es|
  {
    if es != [] {
      EventKeeps(s, es[0]);
      RunKeeps(Apply(s, es[0]), es[1..]);
    }
  }

  lemma {:induction false} NobodyBusy(n: nat)
    ensures Busy(seq(n, i => Idle)) == multiset{}
  {
    if n > 0 {
      assert seq(n, i => Idle)[1..] == seq(n - 1, i => Idle);
      NobodyBusy(n - 1);
    }
  }

  lemma StartOk(workers: nat, maxBatch: nat)
    requires workers > 0
    ensures Inv(Start(workers, maxBatch))
  {
    NobodyBusy(workers);
  }

  /** The message whose handler returns nil in this event, if there is one and it is decodable. */
  function SucceedsAt(s: Pool, e: Event): set<Envelope> {
    if e.Handle? && e.ok && IsWorker(s, e.i) && s.workers[e.i].Handling? && s.workers[e.i].m.body.Job? then {s.workers[e.i].m} else {}
  }

  lemma SucceededNext(s: Pool, e: Event)
    requires Enabled(s, e)
    ensures Apply(s, e).succeeded == s.succeeded + SucceedsAt(s, e)
  {
  }

  /** The decodable messages whose handler returned nil in the course of a run. */
  ghost function Succeeding(s: Pool, es: seq<Event>): set<Envelope>
    requires Possible(s, es)
    decreases |es|
  {
    if es == [] then {} else SucceedsAt(s, es[0]) + Succeeding(Apply(s, es[0]), es[1..])
  }

  lemma {:induction false} SucceededIs(s: Pool, es: seq<Event>)
    requires Possible(s, es)
    ensures Run(s, es).succeeded == s.succeeded + Succeeding(s, es)
    decreases |es|
  {
    if es != [] {
      SucceededNext(s, es[0]);
      SucceededIs(Apply(s, es[0]), es[1..]);
    }
  }

  lemma {:induction false} SizesStay(s: Pool, es: seq<Event>)
    requires Possible(s, es)
    ensures Run(s, es).capacity == s.capacity && |Run(s, es).workers| == |s.workers|
    decreases |es|
  {
    if es != [] { SizesStay(Apply(s, es[0]), es[1..]); }
  }

  /** In every run, every received message is in exactly one of the producer's hand, the channel
      (never more than two per worker), a worker, finished or dropped; and a finished one has had its
      deletion attempted, once, exactly if it was undecodable or its handler returned nil. */
  lemma EveryMessageIsSomewhere(workers: nat, maxBatch: nat, es: seq<Event>)
    requires workers > 0 && Possible(Start(workers, maxBatch), es)
    ensures var s := Run(Start(workers, maxBatch), es);
            && (forall m :: s.received[m] == Places(s, m) <= 1)
            && |s.workers| == workers && |s.channel| <= 2 * workers
            && (Enabled(s, Push) <==> s.producer.Handing? && s.producer.hand != [] && |s.channel| < 2 * workers)
            && (forall m :: s.deletions[m] == if !m.body.Job? || m in Succeeding(Start(workers, maxBatch), es) then s.finished[m] else 0)
  {
    var s := Run(Start(workers, maxBatch), es);
    StartOk(workers, maxBatch);
    RunKeeps(Start(workers, maxBatch), es);
    SizesStay(Start(workers, maxBatch), es);
    SucceededIs(Start(workers, maxBatch), es);
    HeldUpOnlyWhenFull(s);
    DeletedIff(s, Succeeding(Start(workers, maxBatch), es));
  }

  lemma HeldUpOnlyWhenFull(s: Pool)
    requires ControlOk(s)
    ensures |s.channel| <= 2 * |s.workers|
    ensures Enabled(s, Push) <==> s.producer.Handing? && s.producer.hand != [] && |s.channel| < 2 * |s.workers|
  {
  }

  lemma DeletedIff(s: Pool, succeeded: set<Envelope>)
    requires DeletesMatch(s) && s.succeeded == succeeded
    ensures forall m :: s.deletions[m] == if !m.body.Job? || m in succeeded then s.finished[m] else 0
  {
    forall m ensures s.deletions[m] == if !m.body.Job? || m in succeeded then s.finished[m] else 0 {
      assert s.deletions[m] == if Deletable(s, m) then s.finished[m] else 0;
    }
  }

  // ----- shutdown

  function ProducerWork(p: Producer, maxBatch: nat): nat {
    match p
    case Stopped => 0
    case Checking => 1
    case Resting => 2
    case Receiving => 3 + 4 * maxBatch
    case Handing(hand) => 2 + 4 * |hand|
  }

  function WorkerWork(w: Worker): nat {
    match w case Exited => 0 case Idle => 1 case Deleting(_) => 2 case Handling(_) => 3
  }

  function PoolWork(ws: seq<Worker>): nat {
    if ws == [] then 0 else WorkerWork(ws[0]) + PoolWork(ws[1..])
  }

  function CallerWork(c: Caller): nat {
    match c case Returned => 0 case Draining => 1 case Listening => 2
  }

  /** What is left to do once the context is cancelled. */
  function Work(s: Pool): nat {
    ProducerWork(s.producer, s.maxBatch) + 3 * |s.channel| + PoolWork(s.workers) + CallerWork(s.caller)
  }

  lemma {:induction false} PoolWorkUpdate(ws: seq<Worker>, i: nat, w: Worker)
    requires i < |ws|
    ensures PoolWork(ws[i := w]) + WorkerWork(ws[i]) == PoolWork(ws) + WorkerWork(w)
  {
    Updated(ws, i, w);
    if i > 0 { PoolWorkUpdate(ws[1..], i - 1, w); }
  }

  lemma WorkDecreases(s: Pool, e: Event)
    requires s.cancelled && Enabled(s, e)
    ensures Apply(s, e).cancelled && Work(Apply(s, e)) < Work(s)
  {
    match e
    case Take(i) => PoolWorkUpdate(s.workers, i, Handling(s.channel[0]));
    case Exit(i) => PoolWorkUpdate(s.workers, i, Exited);
    case Handle(i, ok) => HandleDecreases(s, i, ok);
    case Delete(i) => PoolWorkUpdate(s.workers, i, Idle);
    case _ => OtherWorkDecreases(s, e);
  }

  lemma OtherWorkDecreases(s: Pool, e: Event)
    requires s.cancelled && Enabled(s, e) && !(e.Take? || e.Exit? || e.Handle? || e.Delete?)
    ensures Apply(s, e).cancelled && Work(Apply(s, e)) < Work(s)
  {
  }

  lemma HandleDecreases(s: Pool, i: nat, ok: bool)
    requires Enabled(s, Handle(i, ok))
    ensures Work(Apply(s, Handle(i, ok))) < Work(s)
  {
    PoolWorkUpdate(s.workers, i, Deleting(s.workers[i].m));
    PoolWorkUpdate(s.workers, i, Idle);
  }

  /** Until the call has returned, something can happen: the shutdown cannot get stuck. */
  lemma NeverStuck(s: Pool) returns (e: Event)
    requires Inv(s) && s.cancelled && !s.caller.Returned?
    ensures Enabled(s, e)
  {
    match s.producer
    case Checking => e := Check;
    case Receiving => e := ReceiveError;
    case Resting => e := Wake;
    case Handing(hand) => e := if hand == [] then BatchDone else Quit;
    case Stopped =>
      if s.caller.Listening? {
        e := Hear;
      } else if AllExited(s) {
        e := Return;
      } else {
        var i :| 0 <= i < |s.workers| && !s.workers[i].Exited?;
        e := match s.workers[i]
             case Idle => if s.channel != [] then Take(i) else Exit(i)
             case Handling(_) => Handle(i, true)
             case Deleting(_) => Delete(i)
             case Exited => Return;
      }
  }

  lemma {:induction false} ShutdownRun(s: Pool, es: seq<Event>)
    requires Inv(s) && s.cancelled && Possible(s, es)
    ensures Run(s, es).cancelled && Work(Run(s, es)) + |es| <= Work(s)
    decreases |es|
  {
    if es != [] {
      WorkDecreases(s, es[0]);
      EventKeeps(s, es[0]);
      ShutdownRun(Apply(s, es[0]), es[1..]);
    }
  }

  /** After cancellation every way to go on is bounded by the work left and, if it can go no
      further, ends with the call having returned the context's error and every worker gone; the
      messages dropped were received and handed to nobody. */
  lemma ShutdownCompletes(workers: nat, maxBatch: nat, past: seq<Event>, es: seq<Event>)
    requires workers > 0 && Possible(Start(workers, maxBatch), past)
    requires Run(Start(workers, maxBatch), past).cancelled && Possible(Run(Start(workers, maxBatch), past), es)
    ensures var s := Run(Start(workers, maxBatch), past); var u := Run(s, es);
            && |es| <= Work(s)
            && ((forall e :: !Enabled(u, e)) ==>
                  && u.caller.Returned? && u.closed && u.channel == [] && Busy(u.workers) == multiset{}
                  && (forall m :: u.received[m] == u.finished[m] + u.dropped[m]))
  {
    var s := Run(Start(workers, maxBatch), past);
    StartOk(workers, maxBatch);
    RunKeeps(Start(workers, maxBatch), past);
    ShutdownRun(s, es);
    RunKeeps(s, es);
    var u := Run(s, es);
    if forall e :: !Enabled(u, e) {
      if !u.caller.Returned? { var e := NeverStuck(u); assert false; }
      assert u.workers[0].Exited?;
      AllGone(u.workers);
    }
  }

  lemma {:induction false} AllGone(ws: seq<Worker>)
    requires forall i | 0 <= i < |ws| :: ws[i].Exited?
    ensures Busy(ws) == multiset{}
  {
    if ws != [] { AllGone(ws[1..]); }
  }
}
