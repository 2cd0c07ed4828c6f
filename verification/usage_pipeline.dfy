/** The usage queue over all interleavings, and the conservation of deltas it keeps
    (usage.go, lines 82-137; oplog.go, lines 193-206). */
module UsagePipeline {
  import opened Text
  import opened Ordering
  import opened Usage

  const USAGE_QUEUE := 4096

  /** A saved operation, as far as metering reads it. */
  datatype Operation = Operation(resource: string, action: string, respCode: int, size: int64,
                                 merchant: string, beforeMerchant: string)

  /** The event enqueueUsageFromLog hands on and EnqueueUsage does not filter out. */
  function EventOf(op: Operation): Option<UsageEvent> {
    match UsageFromOperation(op.resource, op.action, op.respCode, op.size)
    case None => None
    case Some(e) =>
      var m := BilledTo(op.merchant, op.beforeMerchant);
      if m == "" || e.kind == "" || (e.delta == 0 && e.bytes == 0) || SkipUsageMerchant(m) then None
      else Some(e.(merchant := m))
  }

  datatype Start = NotStarted | PublisherSet | ChannelMade | LoopRunning

  datatype State = State(
    start: Start,
    queue: seq<UsageEvent>,
    inFlight: Option<UsageEvent>,
    pending: seq<UsageEvent>,                 // requests that read a channel and are about to send
    operations: seq<Operation>,               // history of saved operations
    accepted: seq<UsageEvent>,                // history of successful sends
    consumed: seq<UsageEvent>,                // history of receives
    published: seq<UsageEvent>,
    failed: seq<UsageEvent>,
    dropped: seq<UsageEvent>,                 // the queue was full
    unstarted: seq<UsageEvent>)               // there was no queue yet

  const INIT := State(NotStarted, [], None, [], [], [], [], [], [], [], [])

  datatype Action =
    | Save(op: Operation)       // up to the read of the channel variable
    | Send(i: nat)              // a pending request tries the send
    | StartStep                 // the next store of the once-function
    | StartAgain
    | Take
    | Publish(ok: bool)

  predicate HasChannel(s: State) {
    s.start.ChannelMade? || s.start.LoopRunning?
  }

  predicate Enabled(s: State, a: Action) {
    match a
    case Save(_) => true
    case Send(i) => i < |s.pending|
    case StartStep => !s.start.LoopRunning?
    case StartAgain => !s.start.NotStarted?
    case Take => s.start.LoopRunning? && s.inFlight.None? && s.queue != []
    case Publish(_) => s.inFlight.Some?
  }

  function Apply(s: State, a: Action): State
    requires Enabled(s, a)
  {
    match a
    case Save(op) =>
      var t := s.(operations := s.operations + [op]);
      (match EventOf(op)
       case None => t
       case Some(e) => if HasChannel(s) then t.(pending := s.pending + [e]) else t.(unstarted := s.unstarted + [e]))
    case Send(i) =>
      var t := s.(pending := Without(s.pending, i));
      if |s.queue| < USAGE_QUEUE then t.(queue := s.queue + [s.pending[i]], accepted := s.accepted + [s.pending[i]])
      else t.(dropped := s.dropped + [s.pending[i]])
    case StartStep => s.(start := match s.start
      case NotStarted => PublisherSet
      case PublisherSet => ChannelMade
      case _ => LoopRunning)
    case StartAgain => s
    case Take => s.(queue := s.queue[1..], inFlight := Some(s.queue[0]), consumed := s.consumed + [s.queue[0]])
    case Publish(ok) =>
      var t := s.(inFlight := None);
      if ok then t.(published := s.published + [s.inFlight.value]) else t.(failed := s.failed + [s.inFlight.value])
  }

  predicate Possible(s: State, run: seq<Action>)
    decreases |run|
  {
    run == [] || (Enabled(s, run[0]) && Possible(Apply(s, run[0]), run[1..]))
  }

  function Exec(s: State, run: seq<Action>): State
    requires Possible(s, run)
    decreases |run|
  {
    if run == [] then s else Exec(Apply(s, run[0]), run[1..])
  }

  // ----- the ledger -----

  function DeltaFor(e: UsageEvent, merchant: string, kind: string): int {
    if e.merchant == merchant && e.kind == kind then e.delta else 0
  }

  /** The sum of the deltas of one tenant and kind. */
  function Total(es: seq<UsageEvent>, merchant: string, kind: string): int {
    if es == [] then 0 else DeltaFor(es[0], merchant, kind) + Total(es[1..], merchant, kind)
  }

  /** What an operation is worth: plus one for a successful create of a metered resource, minus one
      for a successful delete, nothing for anything else. */
  function Worth(op: Operation, merchant: string, kind: string): int {
    if op.respCode >= 400 || op.resource != kind || kind !in METERED then 0
    else if BilledTo(op.merchant, op.beforeMerchant) != merchant || SkipUsageMerchant(merchant) then 0
    else if op.action == "create" then 1
    else if op.action == "delete" then -1
    else 0
  }

  function Owed(ops: seq<Operation>, merchant: string, kind: string): int {
    if ops == [] then 0 else Worth(ops[0], merchant, kind) + Owed(ops[1..], merchant, kind)
  }

  function InFlightEvents(s: State): seq<UsageEvent> {
    if s.inFlight.Some? then [s.inFlight.value] else []
  }

  /** Everything an operation may have become, added up. */
  function Accounted(s: State, merchant: string, kind: string): int {
    Total(s.published, merchant, kind) + Total(s.failed, merchant, kind) + Total(InFlightEvents(s), merchant, kind)
    + Total(s.queue, merchant, kind) + Total(s.pending, merchant, kind)
    + Total(s.dropped, merchant, kind) + Total(s.unstarted, merchant, kind)
  }

  lemma {:induction false} TotalConcat(a: seq<UsageEvent>, b: seq<UsageEvent>, merchant: string, kind: string)
    ensures Total(a + b, merchant, kind) == Total(a, merchant, kind) + Total(b, merchant, kind)
    decreases |a|
  {
    if a == [] {
      assert a + b == b;
    } else {
      assert (a + b)[1..] == a[1..] + b;
      TotalConcat(a[1..], b, merchant, kind);
    }
  }

  lemma TotalOne(e: UsageEvent, merchant: string, kind: string)
    ensures Total([e], merchant, kind) == DeltaFor(e, merchant, kind)
  {
    assert Total([e][1..], merchant, kind) == 0;
  }

  lemma TotalSnoc(a: seq<UsageEvent>, e: UsageEvent, merchant: string, kind: string)
    ensures Total(a + [e], merchant, kind) == Total(a, merchant, kind) + DeltaFor(e, merchant, kind)
  {
    TotalConcat(a, [e], merchant, kind);
    TotalOne(e, merchant, kind);
  }

  lemma TotalWithout(a: seq<UsageEvent>, i: nat, merchant: string, kind: string)
    requires i < |a|
    ensures Total(Without(a, i), merchant, kind) == Total(a, merchant, kind) - DeltaFor(a[i], merchant, kind)
  {
    TotalConcat(a[..i], a[i + 1..], merchant, kind);
    TotalConcat(a[..i], a[i..], merchant, kind);
    assert a == a[..i] + a[i..] && a[i..][1..] == a[i + 1..];
  }

  lemma {:induction false} OwedSnoc(ops: seq<Operation>, op: Operation, merchant: string, kind: string)
    ensures Owed(ops + [op], merchant, kind) == Owed(ops, merchant, kind) + Worth(op, merchant, kind)
    decreases |ops|
  {
    if ops == [] {
      assert ops + [op] == [op];
    } else {
      assert (ops + [op])[1..] == ops[1..] + [op];
      OwedSnoc(ops[1..], op, merchant, kind);
    }
  }

  /** The event of an operation carries exactly the operation's worth. */
  lemma EventCarriesWorth(op: Operation, merchant: string, kind: string)
    ensures Worth(op, merchant, kind) == if EventOf(op).Some? then DeltaFor(EventOf(op).value, merchant, kind) else 0
  {
  }

  /** What a save adds to the two places a new event can go. */
  lemma SaveSplits(s: State, op: Operation) returns (toPending: seq<UsageEvent>, toUnstarted: seq<UsageEvent>)
    ensures Apply(s, Save(op)) == s.(operations := s.operations + [op], pending := s.pending + toPending,
                                     unstarted := s.unstarted + toUnstarted)
    ensures toPending + toUnstarted == if EventOf(op).Some? then [EventOf(op).value] else []
  {
    var es := if EventOf(op).Some? then [EventOf(op).value] else [];
    toPending, toUnstarted := if HasChannel(s) then es else [], if HasChannel(s) then [] else es;
    assert s.pending + [] == s.pending && s.unstarted + [] == s.unstarted;
  }

  lemma SaveAccounted(s: State, op: Operation, merchant: string, kind: string)
    ensures var t := Apply(s, Save(op));
      Accounted(t, merchant, kind) - Accounted(s, merchant, kind)
        == Owed(t.operations, merchant, kind) - Owed(s.operations, merchant, kind)
  {
    var x, y := SaveSplits(s, op);
    OwedSnoc(s.operations, op, merchant, kind);
    EventCarriesWorth(op, merchant, kind);
    TotalConcat(s.pending, x, merchant, kind);
    TotalConcat(s.unstarted, y, merchant, kind);
    TotalConcat(x, y, merchant, kind);
    if EventOf(op).Some? {
      TotalOne(EventOf(op).value, merchant, kind);
    }
  }

  lemma SendAccounted(s: State, i: nat, merchant: string, kind: string)
    requires i < |s.pending|
    ensures Accounted(Apply(s, Send(i)), merchant, kind) == Accounted(s, merchant, kind)
  {
    var e, t := s.pending[i], Apply(s, Send(i));
    TotalWithout(s.pending, i, merchant, kind);
    if |s.queue| < USAGE_QUEUE {
      assert t == s.(pending := Without(s.pending, i), queue := s.queue + [e], accepted := s.accepted + [e]);
      TotalSnoc(s.queue, e, merchant, kind);
    } else {
      assert t == s.(pending := Without(s.pending, i), dropped := s.dropped + [e]);
      TotalSnoc(s.dropped, e, merchant, kind);
    }
    assert InFlightEvents(t) == InFlightEvents(s);
  }

  lemma TakeAccounted(s: State, merchant: string, kind: string)
    requires Enabled(s, Take)
    ensures Accounted(Apply(s, Take), merchant, kind) == Accounted(s, merchant, kind)
  {
    TotalOne(s.queue[0], merchant, kind);
  }

  lemma PublishAccounted(s: State, ok: bool, merchant: string, kind: string)
    requires Enabled(s, Publish(ok))
    ensures Accounted(Apply(s, Publish(ok)), merchant, kind) == Accounted(s, merchant, kind)
  {
    TotalOne(s.inFlight.value, merchant, kind);
    TotalSnoc(s.published, s.inFlight.value, merchant, kind);
    TotalSnoc(s.failed, s.inFlight.value, merchant, kind);
  }

  lemma AccountedStep(s: State, a: Action, merchant: string, kind: string)
    requires Enabled(s, a) && Accounted(s, merchant, kind) == Owed(s.operations, merchant, kind)
    ensures Accounted(Apply(s, a), merchant, kind) == Owed(Apply(s, a).operations, merchant, kind)
  {
    match a
    case Save(op) => SaveAccounted(s, op, merchant, kind);
    case Send(i) => SendAccounted(s, i, merchant, kind);
    case Take => TakeAccounted(s, merchant, kind);
    case Publish(ok) => PublishAccounted(s, ok, merchant, kind);
    case _ =>
  }

  ghost predicate QueueInv(s: State) {
    && |s.queue| <= USAGE_QUEUE
    && s.accepted == s.consumed + s.queue
    && (!HasChannel(s) ==> s.pending == [])
  }

  lemma QueueInvStep(s: State, a: Action)
    requires QueueInv(s) && Enabled(s, a)
    ensures QueueInv(Apply(s, a))
  {
    match a
    case Send(i) => ConcatAssociative(s.consumed, s.queue, [s.pending[i]]);
    case Take =>
      assert s.queue == [s.queue[0]] + s.queue[1..];
      ConcatAssociative(s.consumed, [s.queue[0]], s.queue[1..]);
    case _ =>
  }

  lemma {:induction false} LedgerHolds(s: State, run: seq<Action>, merchant: string, kind: string)
    requires Possible(s, run) && QueueInv(s) && Accounted(s, merchant, kind) == Owed(s.operations, merchant, kind)
    ensures QueueInv(Exec(s, run))
    ensures Accounted(Exec(s, run), merchant, kind) == Owed(Exec(s, run).operations, merchant, kind)
    decreases |run|
  {
    if run != [] {
      AccountedStep(s, run[0], merchant, kind);
      QueueInvStep(s, run[0]);
      LedgerHolds(Apply(s, run[0]), run[1..], merchant, kind);
    }
  }

  /** In every run and for every tenant and kind the deltas published, failed, in flight, queued, about
      to be sent, dropped by a full queue, or dropped for want of a queue add up to the successful
      creates minus the successful deletes; the queue is bounded and first in, first out. */
  lemma UsageConservation(run: seq<Action>, merchant: string, kind: string)
    requires Possible(INIT, run)
    ensures var s := Exec(INIT, run);
      && Accounted(s, merchant, kind) == Owed(s.operations, merchant, kind)
      && |s.queue| <= 4096 && s.accepted == s.consumed + s.queue
  {
    LedgerHolds(INIT, run, merchant, kind);
  }

  // ----- the package variables and the functions over them -----

  /** Start, run to its end. */
  function Started(s: State): State
    requires s.start.NotStarted?
  {
    Apply(Apply(Apply(s, StartStep), StartStep), StartStep)
  }

  /** One save, run without interruption. */
  function Metered(s: State, op: Operation): State {
    var t := Apply(s, Save(op));
    if EventOf(op).Some? && HasChannel(s) then Apply(t, Send(|s.pending|)) else t
  }

  /** Without interruption an event is dropped exactly when there is no queue yet or 4096 events wait in it. */
  lemma MeteredIsHandled(s: State, op: Operation)
    requires EventOf(op).Some?
    ensures var t, e := Metered(s, op), EventOf(op).value;
      && t.unstarted == (if HasChannel(s) then s.unstarted else s.unstarted + [e])
      && t.queue == (if HasChannel(s) && |s.queue| < 4096 then s.queue + [e] else s.queue)
      && t.dropped == (if HasChannel(s) && |s.queue| >= 4096 then s.dropped + [e] else s.dropped)
      && t.pending == s.pending
  {
    if HasChannel(s) {
      var u := Apply(s, Save(op));
      assert u.pending == s.pending + [EventOf(op).value];
      assert Without(u.pending, |s.pending|) == s.pending;
    }
  }

  class UsageQueue {
    var once: bool                           // usageOnce has run
    var usageCh: Option<seq<UsageEvent>>     // usageCh; None is nil
    ghost var model: State

    ghost predicate Valid()
      reads this
    {
      && model.start == (if once then LoopRunning else NotStarted)
      && usageCh == (if once then Some(model.queue) else None)
      && (!once ==> model.queue == [])
    }

    constructor ()
      ensures Valid() && model == INIT
    {
      once, usageCh := false, None;
      model := INIT;
    }

    method StartUsagePublisher(pub: bool)
      requires Valid()
      modifies this
      ensures Valid()
      ensures pub && !old(once) ==> model == Started(old(model)) && usageCh == Some([])
      ensures !pub || old(once) ==> model == old(model) && usageCh == old(usageCh) && once == old(once)
    {
      if pub && !once {
        once := true;
        usageCh := Some([]);
        model := Started(model);
      }
    }

    /** enqueueUsageFromLog with EnqueueUsage. */
    method Meter(op: Operation)
      requires Valid()
      modifies this`usageCh, this`model
      ensures Valid() && model == Metered(old(model), op)
    {
      ghost var s := model;
      model := Apply(model, Save(op));
      var e := UsageFromOperation(op.resource, op.action, op.respCode, op.size);
      if e.None? {
        return;
      }
      var ev := e.value.(merchant := op.merchant);
      if SkipUsageMerchant(ev.merchant) {
        if op.beforeMerchant != "" {
          ev := ev.(merchant := op.beforeMerchant);
        }
      }
      if ev.merchant == "" || ev.kind == "" || (ev.delta == 0 && ev.bytes == 0) {
        return;
      }
      if SkipUsageMerchant(ev.merchant) {
        return;
      }
      assert EventOf(op) == Some(ev);
      var ch := usageCh;
      if ch.None? {
        return;
      }
      assert model.pending[|s.pending|] == ev;
      model := Apply(model, Send(|s.pending|));
      if |ch.value| < USAGE_QUEUE {
        usageCh := Some(ch.value + [ev]);
      }
    }

    /** One round of the consumer loop; `ok` is the publisher's answer. */
    method UsageLoopRound(ok: bool) returns (ev: UsageEvent)
      requires Valid() && once && usageCh != Some([]) && model.inFlight.None?
      modifies this`usageCh, this`model
      ensures Valid() && ev == old(usageCh).value[0]
      ensures model == Apply(Apply(old(model), Take), Publish(ok))
      ensures model.published == old(model).published + (if ok then [ev] else [])
      ensures model.failed == old(model).failed + (if ok then [] else [ev])
    {
      ev := usageCh.value[0];
      usageCh := Some(usageCh.value[1..]);
      model := Apply(model, Take);
      model := Apply(model, Publish(ok));
    }
  }
}
