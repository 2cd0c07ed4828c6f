/** The audit pipeline as interleaved atomic steps: the start-once publisher, the non-blocking queue,
    the consumer loop and the synchronous fallback of the request (audit.go, lines 26-118 and
    oplog.go, lines 182-189). Each request reads `auditCh` twice, in EnqueueAudit and again in
    AuditAsyncReady; the two reads are separate steps. */
module AuditPipeline {
  import opened Text
  import opened Ordering

  const DEFAULT_AUDIT_QUEUE := 4096

  datatype Row = Row(resource: string, action: string)

  const CRITICAL_RESOURCES: set<string> := {
    "member", "member_level", "admin_account", "role", "tenant",
    "pay", "billing", "password", "plan", "partner"
  }

  predicate IsCriticalAudit(resource: string, action: string) {
    Lower(action) == "delete" || Lower(Trim(resource)) in CRITICAL_RESOURCES
  }

  predicate Critical(row: Row) {
    IsCriticalAudit(row.resource, row.action)
  }

  /** How far the one execution of the start function has got. */
  datatype Start = NotStarted | PublisherSet | ChannelMade | LoopRunning

  /** Where a request stands with its row. `full` tells a full queue from a missing one. */
  datatype Phase =
    | Begin                      // about to read the channel variable
    | Holding                    // read a channel, about to try the send
    | Refused(full: bool)        // EnqueueAudit said no, about to ask AuditAsyncReady
    | MustInsert(full: bool)     // about to insert synchronously
    | Accepted
    | Inserted(full: bool)
    | Skipped(full: bool)        // neither queued nor inserted
  {
    /** The send was refused because the queue was full, whatever happened to the row afterwards. */
    predicate FoundFull() {
      (Refused? || MustInsert? || Inserted? || Skipped?) && full
    }
  }

  datatype Request = Request(row: Row, phase: Phase)

  datatype State = State(
    start: Start,
    queue: seq<Row>,
    inFlight: Option<Row>,
    drops: nat,
    requests: seq<Request>,
    accepted: seq<Row>,              // history of successful sends
    consumed: seq<Row>,              // history of receives
    outcomes: seq<(Row, bool)>,      // history of publishes and whether they succeeded
    inserted: seq<Row>)              // history of synchronous inserts

  const INIT := State(NotStarted, [], None, 0, [], [], [], [], [])

  datatype Action =
    | Arrive(row: Row)
    | StartStep                      // the next store of the once-function
    | StartAgain                     // any other call of StartAuditPublisher
    | ReadChannel(i: nat)
    | TrySend(i: nat)
    | AskReady(i: nat)
    | Insert(i: nat)
    | Take
    | Publish(ok: bool)

  predicate HasChannel(s: State) {
    s.start.ChannelMade? || s.start.LoopRunning?
  }

  predicate InPhase(s: State, i: nat, p: Phase) {
    i < |s.requests| && s.requests[i].phase == p
  }

  predicate Enabled(s: State, a: Action) {
    match a
    case Arrive(_) => true
    case StartStep => !s.start.LoopRunning?
    case StartAgain => !s.start.NotStarted?
    case ReadChannel(i) => InPhase(s, i, Begin)
    case TrySend(i) => InPhase(s, i, Holding)
    case AskReady(i) => i < |s.requests| && s.requests[i].phase.Refused?
    case Insert(i) => i < |s.requests| && s.requests[i].phase.MustInsert?
    case Take => s.start.LoopRunning? && s.inFlight.None? && s.queue != []
    case Publish(_) => s.inFlight.Some?
  }

  function Moved(s: State, i: nat, p: Phase): State
    requires i < |s.requests|
  {
    s.(requests := s.requests[i := Request(s.requests[i].row, p)])
  }

  function Apply(s: State, a: Action): State
    requires Enabled(s, a)
  {
    match a
    case Arrive(row) => s.(requests := s.requests + [Request(row, Begin)])
    case StartStep => s.(start := match s.start
      case NotStarted => PublisherSet
      case PublisherSet => ChannelMade
      case _ => LoopRunning)
    case StartAgain => s
    case ReadChannel(i) => Moved(s, i, if HasChannel(s) then Holding else Refused(false))
    case TrySend(i) =>
      if |s.queue| < DEFAULT_AUDIT_QUEUE then
        Moved(s, i, Accepted).(queue := s.queue + [s.requests[i].row], accepted := s.accepted + [s.requests[i].row])
      else
        Moved(s, i, Refused(true)).(drops := s.drops + 1)
    case AskReady(i) =>
      var full := s.requests[i].phase.full;
      var row := s.requests[i].row;
      Moved(s, i, if !HasChannel(s) || Critical(row) then MustInsert(full) else Skipped(full))
    case Insert(i) =>
      Moved(s, i, Inserted(s.requests[i].phase.full)).(inserted := s.inserted + [s.requests[i].row])
    case Take => s.(queue := s.queue[1..], inFlight := Some(s.queue[0]), consumed := s.consumed + [s.queue[0]])
    case Publish(ok) => s.(inFlight := None, outcomes := s.outcomes + [(s.inFlight.value, ok)])
  }

  /** Every action of `run` is possible when its turn comes. */
  predicate Possible(s: State, run: seq<Action>)
    decreases |run|
  {
    run == [] || (Enabled(s, run[0]) && Possible(Apply(s, run[0]), run[1..]))
  }

  function Exec(s: State, run: seq<Action>): State
    requires Possible(s, run)
    decreases |run|
  {
    if run == [] then s else Exec(Apply(s, run[0]), run[1..])
  }

  // ----- invariants of every run -----

  function One(b: bool, row: Row): multiset<Row> {
    if b then multiset{row} else multiset{}
  }

  /** Rows of the requests whose phase satisfies `p`. */
  function RowsIn(rs: seq<Request>, p: Phase -> bool): multiset<Row> {
    if rs == [] then multiset{} else One(p(rs[0].phase), rs[0].row) + RowsIn(rs[1..], p)
  }

  function Count(rs: seq<Request>, p: Phase -> bool): nat {
    if rs == [] then 0 else (if p(rs[0].phase) then 1 else 0) + Count(rs[1..], p)
  }

  function WasAccepted(p: Phase): bool { p.Accepted? }
  function WasInserted(p: Phase): bool { p.Inserted? }

  function WasFull(p: Phase): bool { p.FoundFull() }

  function Firsts(os: seq<(Row, bool)>): seq<Row> {
    seq(|os|, i requires 0 <= i < |os| => os[i].0)
  }

  /** The queue is bounded and FIFO, and every received row is published once, in that order. */
  ghost predicate QueueInv(s: State) {
    && |s.queue| <= DEFAULT_AUDIT_QUEUE
    && s.accepted == s.consumed + s.queue
    && s.consumed == Firsts(s.outcomes) + (if s.inFlight.Some? then [s.inFlight.value] else [])
  }

  /** What the requests believe agrees with the histories: accepted rows are the ones sent, inserted
      rows the ones inserted, and the drop counter counts the refusals by a full queue. */
  ghost predicate RequestInv(s: State) {
    && multiset(s.accepted) == RowsIn(s.requests, WasAccepted)
    && multiset(s.inserted) == RowsIn(s.requests, WasInserted)
    && s.drops == Count(s.requests, WasFull)
  }

  /** Only uncritical rows are ever given up. */
  ghost predicate SkipInv(s: State) {
    forall i :: 0 <= i < |s.requests| && s.requests[i].phase.Skipped? ==> !Critical(s.requests[i].row)
  }

  ghost predicate Inv(s: State) {
    QueueInv(s) && RequestInv(s) && SkipInv(s)
  }

  lemma {:induction false} RowsInUpdate(rs: seq<Request>, i: nat, q: Phase, p: Phase -> bool)
    requires i < |rs|
    ensures RowsIn(rs[i := Request(rs[i].row, q)], p) + One(p(rs[i].phase), rs[i].row)
         == RowsIn(rs, p) + One(p(q), rs[i].row)
    decreases i
  {
    var rs' := rs[i := Request(rs[i].row, q)];
    var was, now := One(p(rs[i].phase), rs[i].row), One(p(q), rs[i].row);
    if i == 0 {
      assert rs'[1..] == rs[1..];
      Swap(now, RowsIn(rs[1..], p), was);
    } else {
      RowsInUpdate(rs[1..], i - 1, q, p);
      assert rs'[1..] == rs[1..][i - 1 := Request(rs[i].row, q)] && rs'[0] == rs[0];
      Regroup(One(p(rs[0].phase), rs[0].row), RowsIn(rs'[1..], p), was, RowsIn(rs[1..], p), now);
    }
  }

  lemma Swap(a: multiset<Row>, x: multiset<Row>, b: multiset<Row>)
    ensures (a + x) + b == (b + x) + a
  {
  }

  lemma Regroup(x: multiset<Row>, a: multiset<Row>, b: multiset<Row>, c: multiset<Row>, d: multiset<Row>)
    requires a + b == c + d
    ensures (x + a) + b == (x + c) + d
  {
    assert (x + a) + b == x + (a + b);
    assert (x + c) + d == x + (c + d);
  }

  lemma {:induction false} CountUpdate(rs: seq<Request>, i: nat, q: Phase, p: Phase -> bool)
    requires i < |rs|
    ensures Count(rs[i := Request(rs[i].row, q)], p)
         == Count(rs, p) + (if p(q) then 1 else 0) - (if p(rs[i].phase) then 1 else 0)
    decreases i
  {
    var rs' := rs[i := Request(rs[i].row, q)];
    if i == 0 {
      assert rs'[1..] == rs[1..];
    } else {
      CountUpdate(rs[1..], i - 1, q, p);
      assert rs'[1..] == rs[1..][i - 1 := Request(rs[i].row, q)];
    }
  }

  lemma {:induction false} NewRequest(rs: seq<Request>, r: Request, p: Phase -> bool)
    requires !p(r.phase)
    ensures RowsIn(rs + [r], p) == RowsIn(rs, p) && Count(rs + [r], p) == Count(rs, p)
    decreases |rs|
  {
    if rs == [] {
      assert rs + [r] == [r];
    } else {
      assert (rs + [r])[1..] == rs[1..] + [r];
      NewRequest(rs[1..], r, p);
    }
  }

  /** `t` differs from `s` by request `i` moving on to `q`, and the histories say so. */
  predicate Moves(s: State, i: nat, q: Phase, t: State)
    requires i < |s.requests|
  {
    var row, was := s.requests[i].row, s.requests[i].phase;
    && t.requests == s.requests[i := Request(row, q)]
    && !was.Accepted? && !was.Inserted? && (was.FoundFull() ==> q.FoundFull())
    && t.accepted == s.accepted + (if q.Accepted? then [row] else [])
    && t.inserted == s.inserted + (if q.Inserted? then [row] else [])
    && t.drops == s.drops + (if q.FoundFull() && !was.FoundFull() then 1 else 0)
  }

  lemma RequestInvMoved(s: State, i: nat, q: Phase, t: State)
    requires RequestInv(s) && i < |s.requests| && Moves(s, i, q, t)
    ensures RequestInv(t)
  {
    HistoryGrows(s.requests, i, q, WasAccepted, s.accepted);
    HistoryGrows(s.requests, i, q, WasInserted, s.inserted);
    CountUpdate(s.requests, i, q, WasFull);
  }

  lemma HistoryGrows(rs: seq<Request>, i: nat, q: Phase, p: Phase -> bool, h: seq<Row>)
    requires i < |rs| && multiset(h) == RowsIn(rs, p) && !p(rs[i].phase)
    ensures multiset(h + (if p(q) then [rs[i].row] else [])) == RowsIn(rs[i := Request(rs[i].row, q)], p)
  {
    RowsInUpdate(rs, i, q, p);
  }

  lemma StepMoves(s: State, i: nat, a: Action)
    requires Enabled(s, a)
    requires (a.ReadChannel? || a.TrySend? || a.AskReady? || a.Insert?) && a.i == i
    ensures i < |s.requests| && i < |Apply(s, a).requests|
    ensures Moves(s, i, Apply(s, a).requests[i].phase, Apply(s, a))
  {
  }

  lemma RequestInvStep(s: State, a: Action)
    requires RequestInv(s) && Enabled(s, a)
    ensures RequestInv(Apply(s, a))
  {
    if a.Arrive? {
      var r := Request(a.row, Begin);
      NewRequest(s.requests, r, WasAccepted);
      NewRequest(s.requests, r, WasInserted);
      NewRequest(s.requests, r, WasFull);
    } else if a.ReadChannel? || a.TrySend? || a.AskReady? || a.Insert? {
      StepMoves(s, a.i, a);
      RequestInvMoved(s, a.i, Apply(s, a).requests[a.i].phase, Apply(s, a));
    }
  }

  lemma QueueInvStep(s: State, a: Action)
    requires QueueInv(s) && Enabled(s, a)
    ensures QueueInv(Apply(s, a))
  {
    match a
    case TrySend(i) => ConcatAssociative(s.consumed, s.queue, [s.requests[i].row]);
    case Take =>
      assert s.queue == [s.queue[0]] + s.queue[1..];
      ConcatAssociative(s.consumed, [s.queue[0]], s.queue[1..]);
    case Publish(ok) =>
      assert Firsts(s.outcomes + [(s.inFlight.value, ok)]) == Firsts(s.outcomes) + [s.inFlight.value];
    case _ =>
  }

  lemma SkipInvStep(s: State, a: Action)
    requires SkipInv(s) && Enabled(s, a)
    ensures SkipInv(Apply(s, a))
  {
  }

  /** Every reachable state of every interleaving satisfies the invariants. */
  lemma {:induction false} InvRun(s: State, run: seq<Action>)
    requires Inv(s) && Possible(s, run)
    ensures Inv(Exec(s, run))
    decreases |run|
  {
    if run != [] {
      QueueInvStep(s, run[0]);
      RequestInvStep(s, run[0]);
      SkipInvStep(s, run[0]);
      InvRun(Apply(s, run[0]), run[1..]);
    }
  }

  lemma InvInit()
    ensures Inv(INIT)
  {
  }

  /** What the invariants say about the end of any run from the start: the queue never exceeds its
      capacity, every row sent was received in order or is still queued, the drop counter counts the
      full-queue refusals, and a critical row is never given up. */
  lemma PipelineSafety(run: seq<Action>)
    requires Possible(INIT, run)
    ensures var s := Exec(INIT, run);
      && |s.queue| <= 4096
      && s.accepted == s.consumed + s.queue
      && Firsts(s.outcomes) <= s.accepted
      && s.drops == Count(s.requests, WasFull)
      && multiset(s.accepted) == RowsIn(s.requests, WasAccepted)
      && multiset(s.inserted) == RowsIn(s.requests, WasInserted)
      && (forall i :: 0 <= i < |s.requests| && Critical(s.requests[i].row) ==> !s.requests[i].phase.Skipped?)
  {
    InvInit();
    InvRun(INIT, run);
  }

  // ----- the one way to lose a row silently -----

  /** The state before action `n` of the run. */
  function StateAt(s: State, run: seq<Action>, n: nat): State
    requires Possible(s, run) && n <= |run|
    decreases n
  {
    if n == 0 then s else StateAt(Apply(s, run[0]), run[1..], n - 1)
  }

  lemma {:induction false} StateAtStep(s: State, run: seq<Action>, n: nat)
    requires Possible(s, run) && n < |run|
    ensures Enabled(StateAt(s, run, n), run[n])
    ensures StateAt(s, run, n + 1) == Apply(StateAt(s, run, n), run[n])
    decreases n
  {
    if n > 0 {
      StateAtStep(Apply(s, run[0]), run[1..], n - 1);
    }
  }

  lemma {:induction false} StateAtEnd(s: State, run: seq<Action>)
    requires Possible(s, run)
    ensures StateAt(s, run, |run|) == Exec(s, run)
    decreases |run|
  {
    if run != [] {
      StateAtEnd(Apply(s, run[0]), run[1..]);
    }
  }

  predicate ChannelAt(run: seq<Action>, n: nat)
    requires Possible(INIT, run) && n <= |run|
  {
    HasChannel(StateAt(INIT, run, n))
  }

  /** Action `n` is the store that makes the channel visible. */
  predicate MakesChannel(run: seq<Action>, n: nat)
    requires Possible(INIT, run) && n < |run|
  {
    run[n].StartStep? && !ChannelAt(run, n) && ChannelAt(run, n + 1)
  }

  lemma {:induction false} ChannelStays(run: seq<Action>, m: nat, n: nat)
    requires Possible(INIT, run) && m <= n <= |run| && ChannelAt(run, m)
    ensures ChannelAt(run, n)
    decreases n - m
  {
    if m < n {
      StateAtStep(INIT, run, m);
      ChannelStays(run, m + 1, n);
    }
  }

  lemma {:induction false} ChannelMadeBetween(run: seq<Action>, m: nat, n: nat) returns (q: nat)
    requires Possible(INIT, run) && m <= n <= |run| && !ChannelAt(run, m) && ChannelAt(run, n)
    ensures m <= q < n && MakesChannel(run, q)
    decreases n - m
  {
    StateAtStep(INIT, run, m);
    if ChannelAt(run, m + 1) {
      q := m;
    } else {
      q := ChannelMadeBetween(run, m + 1, n);
    }
  }

  /** Request `i` read no channel at `p`, the channel was made at `q`, and at `r` the request was told
      the asynchronous path is ready. */
  predicate RacedAt(run: seq<Action>, i: nat, p: nat, q: nat, r: nat)
    requires Possible(INIT, run)
  {
    p < q < r < |run| && run[p] == ReadChannel(i) && MakesChannel(run, q) && run[r] == AskReady(i)
  }

  /** The phases of a request, as far as its first read of the channel matters. */
  datatype Kind = Fresh | NilRefused | NilSkipped | NilInserting | SawChannel

  function KindOf(p: Phase): Kind {
    match p
    case Begin => Fresh
    case Refused(false) => NilRefused
    case Skipped(false) => NilSkipped
    case MustInsert(false) => NilInserting
    case Inserted(false) => NilInserting
    case _ => SawChannel
  }

  function KindAt(run: seq<Action>, n: nat, i: nat): Kind
    requires Possible(INIT, run) && n <= |run|
  {
    var s := StateAt(INIT, run, n);
    if i < |s.requests| then KindOf(s.requests[i].phase) else Fresh
  }

  /** What the first `n` actions say about a request of that kind; `spared` is a row that may be given up. */
  ghost predicate Tale(run: seq<Action>, n: nat, i: nat, spared: bool, k: Kind)
    requires Possible(INIT, run) && n <= |run|
  {
    match k
    case Fresh => forall p :: 0 <= p < n ==> run[p] != ReadChannel(i) && run[p] != AskReady(i)
    case NilRefused =>
      && (exists p :: 0 <= p < n && run[p] == ReadChannel(i) && !ChannelAt(run, p))
      && (forall r :: 0 <= r < n ==> run[r] != AskReady(i))
    case NilSkipped => spared &&
      exists p, r :: 0 <= p < r < n && run[p] == ReadChannel(i) && !ChannelAt(run, p)
                  && run[r] == AskReady(i) && ChannelAt(run, r)
    case NilInserting => forall r :: 0 <= r < n && run[r] == AskReady(i) ==> !ChannelAt(run, r) || !spared
    case SawChannel => forall p :: 0 <= p < n && run[p] == ReadChannel(i) ==> ChannelAt(run, p)
  }

  lemma TaleGoesOn(run: seq<Action>, n: nat, i: nat, spared: bool, k: Kind)
    requires Possible(INIT, run) && n < |run| && Tale(run, n, i, spared, k)
    requires run[n] != ReadChannel(i) && run[n] != AskReady(i)
    ensures Tale(run, n + 1, i, spared, k)
  {
  }

  lemma TaleOfRead(run: seq<Action>, n: nat, i: nat, spared: bool)
    requires Possible(INIT, run) && n < |run| && Tale(run, n, i, spared, Fresh)
    requires run[n] == ReadChannel(i)
    ensures Tale(run, n + 1, i, spared, if ChannelAt(run, n) then SawChannel else NilRefused)
  {
  }

  lemma TaleOfAsk(run: seq<Action>, n: nat, i: nat, spared: bool, k: Kind)
    requires Possible(INIT, run) && n < |run| && Tale(run, n, i, spared, k)
    requires run[n] == AskReady(i) && (k.NilRefused? || k.SawChannel?)
    ensures Tale(run, n + 1, i, spared,
      if k.SawChannel? then SawChannel else if ChannelAt(run, n) && spared then NilSkipped else NilInserting)
  {
    if k.NilRefused? && ChannelAt(run, n) && spared {
      var p :| 0 <= p < n && run[p] == ReadChannel(i) && !ChannelAt(run, p);
      assert 0 <= p < n < n + 1;
    }
  }

  lemma KindStep(s: State, a: Action, i: nat)
    requires Enabled(s, a) && i < |s.requests|
    ensures var t := Apply(s, a);
      && i < |t.requests| && t.requests[i].row == s.requests[i].row
      && var k, l := KindOf(s.requests[i].phase), KindOf(t.requests[i].phase);
         && (a == ReadChannel(i) ==> k == Fresh && l == if HasChannel(s) then SawChannel else NilRefused)
         && (a == AskReady(i) && k == SawChannel ==> l == SawChannel)
         && (a == AskReady(i) && k != SawChannel ==>
               && k == NilRefused
               && l == if HasChannel(s) && !Critical(s.requests[i].row) then NilSkipped else NilInserting)
         && (a != ReadChannel(i) && a != AskReady(i) ==> l == k)
  {
  }

  lemma {:induction false} TaleHolds(run: seq<Action>, n: nat, i: nat, row: Row)
    requires Possible(INIT, run) && n <= |run|
    requires i < |StateAt(INIT, run, n).requests| ==> StateAt(INIT, run, n).requests[i].row == row
    ensures Tale(run, n, i, !Critical(row), KindAt(run, n, i))
    decreases n
  {
    if n > 0 {
      var m := n - 1;
      var s := StateAt(INIT, run, m);
      StateAtStep(INIT, run, m);
      if i < |s.requests| {
        KindStep(s, run[m], i);
      }
      TaleHolds(run, m, i, row);
      var k := KindAt(run, m, i);
      if run[m] == ReadChannel(i) {
        TaleOfRead(run, m, i, !Critical(row));
      } else if run[m] == AskReady(i) {
        TaleOfAsk(run, m, i, !Critical(row), k);
      } else {
        TaleGoesOn(run, m, i, !Critical(row), k);
        if i >= |s.requests| { NewRequestIsFresh(s, run[m], i); }
      }
    }
  }

  lemma NewRequestIsFresh(s: State, a: Action, i: nat)
    requires Enabled(s, a) && i >= |s.requests|
    ensures i < |Apply(s, a).requests| ==> KindOf(Apply(s, a).requests[i].phase) == Fresh
  {
  }

  /** A row is given up without being queued, inserted or counted as dropped exactly when it is not
      critical and the channel was made between the request's two reads of it. */
  lemma SilentLossIff(run: seq<Action>, i: nat)
    requires Possible(INIT, run) && i < |Exec(INIT, run).requests|
    ensures Exec(INIT, run).requests[i].phase == Skipped(false) <==>
      !Critical(Exec(INIT, run).requests[i].row) && exists p, q, r :: RacedAt(run, i, p, q, r)
  {
    var s := Exec(INIT, run);
    StateAtEnd(INIT, run);
    TaleHolds(run, |run|, i, s.requests[i].row);
    if s.requests[i].phase == Skipped(false) {
      RaceOfTale(run, i);
    }
    if !Critical(s.requests[i].row) {
      forall p, q, r | RacedAt(run, i, p, q, r)
        ensures KindAt(run, |run|, i) == NilSkipped
      {
        TaleOfRace(run, i, p, q, r, KindAt(run, |run|, i));
      }
    }
  }

  /** The race, run: the request reads no channel, the publisher starts as far as making it, and the
      request is told that the asynchronous path is ready. Nothing ever happens to the row. */
  lemma RaceLosesRow(row: Row)
    requires !Critical(row)
    ensures var run := [Arrive(row), ReadChannel(0), StartStep, StartStep, AskReady(0)];
      Possible(INIT, run) && Exec(INIT, run).requests == [Request(row, Skipped(false))]
  {
    var s1 := Apply(INIT, Arrive(row));
    var s2 := Apply(s1, ReadChannel(0));
    var s4 := Apply(Apply(s2, StartStep), StartStep);
    OneMore(s4, AskReady(0), []);
    OneMore(Apply(s2, StartStep), StartStep, [AskReady(0)]);
    OneMore(s2, StartStep, [StartStep, AskReady(0)]);
    OneMore(s1, ReadChannel(0), [StartStep, StartStep, AskReady(0)]);
    OneMore(INIT, Arrive(row), [ReadChannel(0), StartStep, StartStep, AskReady(0)]);
  }

  lemma OneMore(s: State, a: Action, run: seq<Action>)
    requires Enabled(s, a) && Possible(Apply(s, a), run)
    ensures Possible(s, [a] + run) && Exec(s, [a] + run) == Exec(Apply(s, a), run)
  {
    assert ([a] + run)[1..] == run;
  }

  lemma RaceOfTale(run: seq<Action>, i: nat)
    requires Possible(INIT, run) && Tale(run, |run|, i, true, NilSkipped)
    ensures exists p, q, r :: RacedAt(run, i, p, q, r)
  {
    var p, r :| 0 <= p < r < |run| && run[p] == ReadChannel(i) && !ChannelAt(run, p)
             && run[r] == AskReady(i) && ChannelAt(run, r);
    RaceBetween(run, i, p, r);
  }

  lemma RaceBetween(run: seq<Action>, i: nat, p: nat, r: nat)
    requires Possible(INIT, run) && p < r < |run| && run[p] == ReadChannel(i) && run[r] == AskReady(i)
    requires !ChannelAt(run, p) && ChannelAt(run, r)
    ensures exists q :: RacedAt(run, i, p, q, r)
  {
    var q := ChannelMadeBetween(run, p, r);
    StateAtStep(INIT, run, p);
    assert q != p;
    assert RacedAt(run, i, p, q, r);
  }

  lemma TaleOfRace(run: seq<Action>, i: nat, p: nat, q: nat, r: nat, k: Kind)
    requires Possible(INIT, run) && RacedAt(run, i, p, q, r) && Tale(run, |run|, i, true, k)
    ensures k == NilSkipped
  {
    if ChannelAt(run, p) { ChannelStays(run, p, q); assert false; }
    ChannelStays(run, q + 1, r);
  }

  // ----- the package variables and the functions over them -----

  /** EnqueueAudit run without interruption. */
  function Enqueued(s: State, i: nat): State
    requires InPhase(s, i, Begin)
  {
    var t := Apply(s, ReadChannel(i));
    if HasChannel(s) then Apply(t, TrySend(i)) else t
  }

  /** The fallback of saveOperationLog run without interruption. */
  function Settled(s: State, i: nat): State
    requires i < |s.requests| && s.requests[i].phase.Refused?
  {
    var t := Apply(s, AskReady(i));
    if t.requests[i].phase.MustInsert? then Apply(t, Insert(i)) else t
  }

  /** A whole save run without interruption, of the row that arrives with it. */
  function Saved(s: State, row: Row): State {
    var i := |s.requests|;
    var t := Enqueued(Apply(s, Arrive(row)), i);
    if t.requests[i].phase.Refused? then Settled(t, i) else t
  }

  /** Without interruption nothing is lost silently: the row is queued, or inserted, or it is an
      uncritical one that a full queue turned away and that was counted. */
  lemma SavedIsHandled(s: State, row: Row)
    ensures var t, p := Saved(s, row), Saved(s, row).requests[|s.requests|].phase;
      && (p.Accepted? <==> HasChannel(s) && |s.queue| < 4096)
      && (p.Inserted? <==> !HasChannel(s) || (|s.queue| >= 4096 && Critical(row)))
      && (p.Accepted? || p.Inserted? || p == Skipped(true))
      && t.queue == (if p.Accepted? then s.queue + [row] else s.queue)
      && t.inserted == (if p.Inserted? then s.inserted + [row] else s.inserted)
      && t.drops == s.drops + (if HasChannel(s) && !p.Accepted? then 1 else 0)
  {
  }

  /** The rows the comment in the source promises not to lose: deletions, in any letter case, and the rows of
      these resources, in any letter case and with white space around them. */
  predicate Promised(row: Row) {
    || Lower(row.action) == "delete"
    || Lower(Trim(row.resource)) == "member" || Lower(Trim(row.resource)) == "member_level"
    || Lower(Trim(row.resource)) == "admin_account" || Lower(Trim(row.resource)) == "role"
    || Lower(Trim(row.resource)) == "tenant" || Lower(Trim(row.resource)) == "pay"
    || Lower(Trim(row.resource)) == "billing" || Lower(Trim(row.resource)) == "password"
    || Lower(Trim(row.resource)) == "plan" || Lower(Trim(row.resource)) == "partner"
  }

  lemma PromisedIsCritical(row: Row)
    ensures Promised(row) <==> Critical(row)
  {
  }

  /** On a full queue each of them is inserted at once, and every other row is counted and given up. */
  lemma FullQueueKeepsPromise(s: State, row: Row)
    requires HasChannel(s) && |s.queue| >= 4096
    ensures var t := Saved(s, row);
      && t.requests[|s.requests|].phase == (if Promised(row) then Inserted(true) else Skipped(true))
      && t.inserted == (if Promised(row) then s.inserted + [row] else s.inserted)
      && t.drops == s.drops + 1 && t.queue == s.queue
  {
    PromisedIsCritical(row);
  }

  /** In no run is such a row ever given up, and wherever its request ends it is queued or inserted. */
  lemma PromiseKept(run: seq<Action>, i: nat)
    requires Possible(INIT, run) && i < |Exec(INIT, run).requests|
    ensures var req := Exec(INIT, run).requests[i];
      Promised(req.row) ==> !req.phase.Skipped?
    ensures var req := Exec(INIT, run).requests[i];
      Promised(req.row) && !Enabled(Exec(INIT, run), ReadChannel(i)) && !Enabled(Exec(INIT, run), TrySend(i))
        && !Enabled(Exec(INIT, run), AskReady(i)) && !Enabled(Exec(INIT, run), Insert(i)) ==>
      req.phase.Accepted? || req.phase.Inserted?
  {
    PipelineSafety(run);
    PromisedIsCritical(Exec(INIT, run).requests[i].row);
  }

  class AuditQueue {
    var once: bool                    // auditOnce has run
    var auditCh: Option<seq<Row>>     // auditCh; None is nil
    var auditDropTotal: nat
    var database: seq<Row>            // rows handed to the synchronous insert
    ghost var model: State

    ghost predicate Valid()
      reads this
    {
      && (if once then model.start == LoopRunning else model.start == NotStarted)
      && auditCh == (if once then Some(model.queue) else None)
      && (!once ==> model.queue == [])
      && auditDropTotal == model.drops
      && database == model.inserted
    }

    constructor ()
      ensures Valid() && model == INIT
    {
      once, auditCh, auditDropTotal, database := false, None, 0, [];
      model := INIT;
    }

    /** Starts the publisher the first time it is given one; any other call changes nothing. */
    method StartAuditPublisher(pub: bool)
      requires Valid()
      modifies this
      ensures Valid()
      ensures !pub || old(once) ==> model == old(model) && auditCh == old(auditCh) && once == old(once)
      ensures pub && !old(once) ==> auditCh == Some([]) && model == old(model).(start := LoopRunning)
      ensures pub && !old(once) ==> model == Apply(Apply(Apply(old(model), StartStep), StartStep), StartStep)
      ensures auditDropTotal == old(auditDropTotal) && database == old(database)
    {
      if !pub {
        return;
      }
      if !once {
        once := true;
        auditCh := Some([]);
        model := Apply(Apply(Apply(model, StartStep), StartStep), StartStep);
      }
    }

    method EnqueueAudit(m: Row, ghost i: nat) returns (ok: bool)
      requires Valid() && InPhase(model, i, Begin) && model.requests[i].row == m
      modifies this`auditCh, this`auditDropTotal, this`model
      ensures Valid() && model == Enqueued(old(model), i)
      ensures ok <==> model.requests[i].phase.Accepted?
      ensures !ok ==> model.requests[i].phase.Refused?
      ensures auditDropTotal == old(auditDropTotal) + (if !ok && auditCh.Some? then 1 else 0)
    {
      var ch := auditCh;
      model := Apply(model, ReadChannel(i));
      if ch.None? {
        return false;
      }
      model := Apply(model, TrySend(i));
      if |ch.value| < DEFAULT_AUDIT_QUEUE {
        auditCh := Some(ch.value + [m]);
        return true;
      }
      auditDropTotal := auditDropTotal + 1;
      return false;
    }

    predicate AuditAsyncReady()
      reads this
    {
      auditCh.Some?
    }

    /** The queueing part of saveOperationLog. On a full queue a row the source promises not to lose goes to
        the database at once, and any other does not. */
    method SaveRow(m: Row)
      requires Valid()
      modifies this
      ensures Valid() && model == Saved(old(model), m)
      ensures old(auditCh).Some? && |old(auditCh).value| >= 4096 ==>
        auditCh == old(auditCh) && database == if Promised(m) then old(database) + [m] else old(database)
    {
      PromisedIsCritical(m);
      ghost var i := |model.requests|;
      model := Apply(model, Arrive(m));
      var enqueued := EnqueueAudit(m, i);
      if !enqueued {
        var ready := AuditAsyncReady();
        model := Apply(model, AskReady(i));
        if !ready || IsCriticalAudit(m.resource, m.action) {
          database := database + [m];
          model := Apply(model, Insert(i));
        }
      }
    }

    /** One round of the consumer loop; `ok` is the publisher's answer. */
    method AuditLoopRound(ok: bool) returns (m: Row)
      requires Valid() && once && auditCh != Some([]) && model.inFlight.None?
      modifies this`auditCh, this`model
      ensures Valid() && m == old(auditCh).value[0]
      ensures model == Apply(Apply(old(model), Take), Publish(ok))
      ensures model.outcomes == old(model).outcomes + [(m, ok)]
    {
      m := auditCh.value[0];
      auditCh := Some(auditCh.value[1..]);
      model := Apply(model, Take);
      model := Apply(model, Publish(ok));
    }
  }
}
