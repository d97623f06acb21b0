/** receipts/escrow.py: settlement conditioned on evidence. One escrow is a state machine whose
    every call, accepted, rejected or raising, is a step. */
module Escrow {
  import opened Common
  import opened Receipts
  import opened Signing
  import Text

  datatype State = OPEN | DELIVERED | ACCEPTED | DISPUTED | RELEASED | REFUNDED | EXPIRED

  datatype Event = Event(at: int, state: State, actor: int, note: string)

  datatype Book = Book(task: TaskSpec, state: State, receipt: Option<Receipt>, chain: Option<Chain>,
                       history: seq<Event>, autoAcceptAfter: int, arbiterAgent: int, resolution: string)

  /** `Raised` carries the error a caller sees, `Problems` the list `deliver` returns. */
  datatype Outcome = Raised(error: EscrowError) | Late | Problems(problems: seq<Problem>) | Moved

  datatype EscrowError = WrongState | NotThePayer | NoReason | NotTheArbiter | NoAmount | NoRail | SameParties

  function To(b: Book, state: State, actor: int, note: string, now: int): Book {
    b.(state := state, history := b.history + [Event(now, state, actor, note)])
  }

  function OpenEscrow(task: TaskSpec, autoAcceptAfter: int, arbiterAgent: int, now: int): Result<Book, EscrowError> {
    if task.amountMinor <= 0 then Err(NoAmount)
    else if task.rail == "" then Err(NoRail)
    else if task.payerAgent == task.payeeAgent then Err(SameParties)
    else Ok(To(Book(task, OPEN, None, None, [], autoAcceptAfter, arbiterAgent, ""), OPEN, task.payerAgent,
               "funds committed", now))
  }

  function Deliver(b: Book, receipt: Receipt, chain: Option<Chain>, now: int): (Book, Outcome) {
    if b.state != OPEN then (b, Raised(WrongState))
    else if Expired(b.task, now) then (To(b, EXPIRED, 0, "deadline passed before delivery", now), Late)
    else
      var problems := VerifyReceipt(receipt, b.task, chain, None, now);
      if problems != [] then
        (b.(history := b.history + [Event(now, OPEN, b.task.payeeAgent, "delivery rejected")]), Problems(problems))
      else
        (To(b.(receipt := Some(receipt), chain := chain), DELIVERED, b.task.payeeAgent, "receipt verified", now),
         Problems([]))
  }

  function Accept(b: Book, agent: int, now: int): (Book, Outcome) {
    if b.state != DELIVERED then (b, Raised(WrongState))
    else if agent != b.task.payerAgent then (b, Raised(NotThePayer))
    else (To(To(b, ACCEPTED, agent, "accepted by payer", now), RELEASED, agent, "funds releasable", now), Moved)
  }

  function Dispute(b: Book, agent: int, reason: string, now: int): (Book, Outcome) {
    if b.state != DELIVERED then (b, Raised(WrongState))
    else if agent != b.task.payerAgent then (b, Raised(NotThePayer))
    else if Text.Strip(reason) == "" then (b, Raised(NoReason))
    else (To(b, DISPUTED, agent, "disputed: " + reason, now), Moved)
  }

  function Resolve(b: Book, agent: int, release: bool, note: string, now: int): (Book, Outcome) {
    if b.state != DISPUTED then (b, Raised(WrongState))
    else if b.arbiterAgent != 0 && agent != b.arbiterAgent then (b, Raised(NotTheArbiter))
    else
      var ruling := if release then RELEASED else REFUNDED;
      (To(b.(resolution := note), ruling, agent, "arbiter ruling: " + note, now), Moved)
  }

  predicate Terminal(s: State) { s == RELEASED || s == REFUNDED }

  predicate TimedOut(b: Book, now: int) {
    && b.state == DELIVERED && b.autoAcceptAfter != 0
    && b.receipt.Some? && now >= b.receipt.value.deliveredAt + b.autoAcceptAfter
  }

  function Tick(b: Book, now: int): Book {
    if Terminal(b.state) then b
    else if b.state == OPEN && Expired(b.task, now) then
      To(To(b, EXPIRED, 0, "deadline passed with no delivery", now), REFUNDED, 0, "auto-refund on expiry", now)
    else if TimedOut(b, now) then
      To(To(b, ACCEPTED, 0, "auto-accepted after timeout", now), RELEASED, 0, "funds releasable", now)
    else b
  }

  datatype Op =
    | DeliverOp(receipt: Receipt, chain: Option<Chain>, now: int)
    | AcceptOp(agent: int, now: int)
    | DisputeOp(agent: int, reason: string, now: int)
    | ResolveOp(agent: int, release: bool, note: string, now: int)
    | TickOp(now: int)

  function Step(b: Book, op: Op): Book {
    match op
    case DeliverOp(r, c, now) => Deliver(b, r, c, now).0
    case AcceptOp(agent, now) => Accept(b, agent, now).0
    case DisputeOp(agent, reason, now) => Dispute(b, agent, reason, now).0
    case ResolveOp(agent, release, note, now) => Resolve(b, agent, release, note, now).0
    case TickOp(now) => Tick(b, now)
  }

  function Run(b: Book, ops: seq<Op>): Book
    decreases |ops|
  {
    if ops == [] then b else Step(Run(b, ops[..|ops| - 1]), ops[|ops| - 1])
  }

  predicate ReadyToRelease(b: Book) { b.state == RELEASED }

  // ---- the history is a word of the documented diagram ----

  function Trail(history: seq<Event>): (s: seq<State>)
    ensures |s| == |history| && forall i :: 0 <= i < |s| ==> s[i] == history[i].state
  {
    seq(|history|, i requires 0 <= i < |history| => history[i].state)
  }

  /** What can follow the opening run of OPEN entries, given where the escrow now stands. */
  predicate Ending(s: State, tail: seq<State>) {
    match s
    case OPEN => tail == []
    case DELIVERED => tail == [DELIVERED]
    case ACCEPTED => false
    case DISPUTED => tail == [DELIVERED, DISPUTED]
    case RELEASED => tail == [DELIVERED, ACCEPTED, RELEASED] || tail == [DELIVERED, DISPUTED, RELEASED]
    case REFUNDED => tail == [DELIVERED, DISPUTED, REFUNDED] || tail == [EXPIRED, REFUNDED]
    case EXPIRED => tail == [EXPIRED]
  }

  ghost predicate Documented(b: Book) {
    exists n, tail :: 0 < n <= |b.history| && Ending(b.state, tail) && Split(b, n, tail)
  }

  ghost predicate Split(b: Book, n: nat, tail: seq<State>)
    requires n <= |b.history|
  {
    (forall i :: 0 <= i < n ==> b.history[i].state == OPEN) && Trail(b.history)[n..] == tail
  }

  /** The moves of the diagram, with the entries each one writes. */
  predicate Moves(s: State, more: seq<State>, t: State) {
    || (s == t && more == [])
    || (s == OPEN && t == OPEN && more == [OPEN])
    || (s == OPEN && t == EXPIRED && more == [EXPIRED])
    || (s == OPEN && t == REFUNDED && more == [EXPIRED, REFUNDED])
    || (s == OPEN && t == DELIVERED && more == [DELIVERED])
    || (s == DELIVERED && t == RELEASED && more == [ACCEPTED, RELEASED])
    || (s == DELIVERED && t == DISPUTED && more == [DISPUTED])
    || (s == DISPUTED && (t == RELEASED || t == REFUNDED) && more == [t])
  }

  lemma TrailOfMore(a: seq<Event>, more: seq<Event>)
    ensures Trail(a + more) == Trail(a) + Trail(more)
  {
  }

  lemma DeliverMoves(b: Book, r: Receipt, c: Option<Chain>, now: int) returns (more: seq<Event>)
    ensures Deliver(b, r, c, now).0.history == b.history + more
    ensures Moves(b.state, Trail(more), Deliver(b, r, c, now).0.state)
  {
    hide VerifyReceipt, Expired;
    if b.state != OPEN {
      more := [];
    } else if Expired(b.task, now) {
      more := [Event(now, EXPIRED, 0, "deadline passed before delivery")];
    } else if VerifyReceipt(r, b.task, c, None, now) != [] {
      more := [Event(now, OPEN, b.task.payeeAgent, "delivery rejected")];
    } else {
      more := [Event(now, DELIVERED, b.task.payeeAgent, "receipt verified")];
    }
  }

  lemma TickMoves(b: Book, now: int) returns (more: seq<Event>)
    ensures Tick(b, now).history == b.history + more
    ensures Moves(b.state, Trail(more), Tick(b, now).state)
  {
    hide Expired;
    if !Terminal(b.state) && b.state == OPEN && Expired(b.task, now) {
      more := [Event(now, EXPIRED, 0, "deadline passed with no delivery"),
               Event(now, REFUNDED, 0, "auto-refund on expiry")];
    } else if !Terminal(b.state) && TimedOut(b, now) {
      more := [Event(now, ACCEPTED, 0, "auto-accepted after timeout"), Event(now, RELEASED, 0, "funds releasable")];
    } else {
      more := [];
    }
  }

  lemma DecisionMoves(b: Book, op: Op) returns (more: seq<Event>)
    requires op.AcceptOp? || op.DisputeOp? || op.ResolveOp?
    ensures Step(b, op).history == b.history + more
    ensures Moves(b.state, Trail(more), Step(b, op).state)
  {
    hide Text.Strip;
    if Step(b, op) == b {
      more := [];
    } else {
      more := match op
      case AcceptOp(agent, now) =>
        [Event(now, ACCEPTED, agent, "accepted by payer"), Event(now, RELEASED, agent, "funds releasable")]
      case DisputeOp(agent, reason, now) => [Event(now, DISPUTED, agent, "disputed: " + reason)]
      case ResolveOp(agent, release, note, now) =>
        [Event(now, if release then RELEASED else REFUNDED, agent, "arbiter ruling: " + note)]
      case _ => [];
    }
  }

  /** Every call makes one of those moves, or none. */
  lemma StepMoves(b: Book, op: Op) returns (more: seq<Event>)
    ensures Step(b, op).history == b.history + more
    ensures Moves(b.state, Trail(more), Step(b, op).state)
  {
    hide Moves, Deliver, Tick, Accept, Dispute, Resolve;
    match op
    case DeliverOp(r, c, now) => more := DeliverMoves(b, r, c, now);
    case TickOp(now) => more := TickMoves(b, now);
    case _ => more := DecisionMoves(b, op);
  }

  lemma EndingExtends(s: State, tail: seq<State>, more: seq<State>, t: State)
    requires Ending(s, tail) && Moves(s, more, t) && t != OPEN
    ensures Ending(t, tail + more)
  {
    if more == [] { assert tail + more == tail; }
  }

  lemma OpenStaysDocumented(b: Book, c: Book, n: nat, more: seq<Event>)
    requires n <= |b.history| && Split(b, n, []) && c.state == OPEN && c.history == b.history + more
    requires 0 < n && (Trail(more) == [] || Trail(more) == [OPEN])
    ensures Documented(c)
  {
    assert |Trail(b.history)[n..]| == 0;
    assert forall i :: 0 <= i < |more| ==> Trail(more)[i] == OPEN;
    assert Trail(c.history)[|c.history|..] == [];
    assert Split(c, |c.history|, []);
  }

  lemma MovedStaysDocumented(b: Book, c: Book, n: nat, tail: seq<State>, more: seq<Event>)
    requires n <= |b.history| && Split(b, n, tail) && c.history == b.history + more
    requires 0 < n && Ending(c.state, tail + Trail(more))
    ensures Documented(c)
  {
    hide Ending;
    TrailOfMore(b.history, more);
    assert Trail(c.history)[n..] == tail + Trail(more);
    assert Split(c, n, tail + Trail(more));
  }

  lemma StepKeepsDocumented(b: Book, op: Op)
    requires Documented(b)
    ensures Documented(Step(b, op))
  {
    hide Step, Split;
    var n, tail :| 0 < n <= |b.history| && Ending(b.state, tail) && Split(b, n, tail);
    var c := Step(b, op);
    var more := StepMoves(b, op);
    if c.state == OPEN {
      OpenStaysDocumented(b, c, n, more);
    } else {
      EndingExtends(b.state, tail, Trail(more), c.state);
      MovedStaysDocumented(b, c, n, tail, more);
    }
  }

  /** Over all runs the history is OPEN+ and then exactly one of the diagram's paths, and the
      current state is where that path ends. */
  lemma {:induction false} HistoryIsDocumented(task: TaskSpec, auto: int, arbiter: int, now: int, ops: seq<Op>)
    requires OpenEscrow(task, auto, arbiter, now).Ok?
    ensures Documented(Run(OpenEscrow(task, auto, arbiter, now).value, ops))
    decreases |ops|
  {
    var start := OpenEscrow(task, auto, arbiter, now).value;
    if ops == [] {
      assert Split(start, 1, []);
    } else {
      HistoryIsDocumented(task, auto, arbiter, now, ops[..|ops| - 1]);
      StepKeepsDocumented(Run(start, ops[..|ops| - 1]), ops[|ops| - 1]);
    }
  }

  // ---- who can release, and on what ----

  /** The call that delivered: before the deadline, with a receipt that verified then. */
  ghost predicate Delivers(task: TaskSpec, op: Op, receipt: Receipt, chain: Option<Chain>) {
    && op.DeliverOp? && op.receipt == receipt && op.chain == chain
    && !Expired(task, op.now) && VerifyReceipt(receipt, task, chain, None, op.now) == []
  }

  ghost predicate Disputes(task: TaskSpec, op: Op) {
    op.DisputeOp? && op.agent == task.payerAgent && Text.Strip(op.reason) != ""
  }

  ghost predicate AcceptsOrTimesOut(task: TaskSpec, auto: int, op: Op, receipt: Receipt) {
    || (op.AcceptOp? && op.agent == task.payerAgent)
    || (op.TickOp? && auto != 0 && op.now >= receipt.deliveredAt + auto)
  }

  ghost predicate Rules(arbiter: int, op: Op, release: bool) {
    op.ResolveOp? && op.release == release && (arbiter == 0 || op.agent == arbiter)
  }

  /** `i` delivered what the book holds. */
  ghost predicate DeliveredAt(b: Book, ops: seq<Op>, i: int) {
    0 <= i < |ops| && b.receipt.Some? && Delivers(b.task, ops[i], b.receipt.value, b.chain)
  }

  ghost predicate DisputedAt(b: Book, ops: seq<Op>, i: int, j: int) {
    DeliveredAt(b, ops, i) && i < j < |ops| && Disputes(b.task, ops[j])
  }

  ghost predicate AcceptedAt(b: Book, ops: seq<Op>, i: int, j: int) {
    DeliveredAt(b, ops, i) && i < j < |ops| && AcceptsOrTimesOut(b.task, b.autoAcceptAfter, ops[j], b.receipt.value)
  }

  ghost predicate RuledAt(b: Book, ops: seq<Op>, i: int, j: int, k: int, release: bool) {
    DisputedAt(b, ops, i, j) && j < k < |ops| && Rules(b.arbiterAgent, ops[k], release)
  }

  ghost predicate LapsedAt(b: Book, ops: seq<Op>, k: int) {
    0 <= k < |ops| && ops[k].TickOp? && Expired(b.task, ops[k].now)
  }

  /** Each state is accounted for by the calls that led to it. */
  ghost predicate Accounted(b: Book, ops: seq<Op>) {
    && (b.state == OPEN || b.state == EXPIRED ==> b.receipt.None?)
    && (b.state == DELIVERED ==> exists i :: DeliveredAt(b, ops, i))
    && (b.state == DISPUTED ==> exists i, j :: DisputedAt(b, ops, i, j))
    && (b.state == RELEASED ==>
          (exists i, j :: AcceptedAt(b, ops, i, j)) || exists i, j, k :: RuledAt(b, ops, i, j, k, true))
    && (b.state == REFUNDED ==>
          (exists k :: LapsedAt(b, ops, k) && b.receipt.None?) || exists i, j, k :: RuledAt(b, ops, i, j, k, false))
    && b.state != ACCEPTED
  }

  /** Accounts do not change when calls that change nothing are added. */
  lemma AccountedLater(b: Book, ops: seq<Op>, op: Op)
    requires Accounted(b, ops)
    ensures Accounted(b, ops + [op])
  {
    var all := ops + [op];
    assert forall i :: 0 <= i < |ops| ==> all[i] == ops[i];
    if b.state == DELIVERED { var i :| DeliveredAt(b, ops, i); assert DeliveredAt(b, all, i); }
    if b.state == DISPUTED { var i, j :| DisputedAt(b, ops, i, j); assert DisputedAt(b, all, i, j); }
    if b.state == RELEASED {
      if i, j :| AcceptedAt(b, ops, i, j) { assert AcceptedAt(b, all, i, j); }
      if i, j, k :| RuledAt(b, ops, i, j, k, true) { assert RuledAt(b, all, i, j, k, true); }
    }
    if b.state == REFUNDED {
      if k :| LapsedAt(b, ops, k) { assert LapsedAt(b, all, k); }
      if i, j, k :| RuledAt(b, ops, i, j, k, false) { assert RuledAt(b, all, i, j, k, false); }
    }
  }

  lemma StepAccounted(b: Book, ops: seq<Op>, op: Op)
    requires Accounted(b, ops)
    ensures Accounted(Step(b, op), ops + [op])
  {
    hide VerifyReceipt, Expired, Text.Strip;
    AccountedLater(b, ops, op);
    var all, c, last := ops + [op], Step(b, op), |ops|;
    if c.state != b.state {
      match b.state
      case OPEN =>
        if c.state == DELIVERED { assert DeliveredAt(c, all, last); }
        if c.state == REFUNDED { assert LapsedAt(c, all, last); }
      case DELIVERED =>
        var i :| DeliveredAt(b, ops, i);
        assert DeliveredAt(c, all, i);
        if c.state == DISPUTED { assert DisputedAt(c, all, i, last); }
        if c.state == RELEASED { assert AcceptedAt(c, all, i, last); }
      case DISPUTED =>
        var i, j :| DisputedAt(b, ops, i, j);
        assert DisputedAt(c, all, i, j);
        assert RuledAt(c, all, i, j, last, c.state == RELEASED);
      case _ =>
    }
  }

  lemma StartAccounted(task: TaskSpec, auto: int, arbiter: int, now: int)
    requires OpenEscrow(task, auto, arbiter, now).Ok?
    ensures Accounted(OpenEscrow(task, auto, arbiter, now).value, [])
  {
  }

  lemma {:induction false} RunAccounted(task: TaskSpec, auto: int, arbiter: int, now: int, ops: seq<Op>)
    requires OpenEscrow(task, auto, arbiter, now).Ok?
    ensures Accounted(Run(OpenEscrow(task, auto, arbiter, now).value, ops), ops)
    decreases |ops|
  {
    hide Step, Accounted;
    StartAccounted(task, auto, arbiter, now);
    if ops != [] {
      var init := ops[..|ops| - 1];
      RunAccounted(task, auto, arbiter, now, init);
      assert ops == init + [ops[|ops| - 1]];
      StepAccounted(Run(OpenEscrow(task, auto, arbiter, now).value, init), init, ops[|ops| - 1]);
    }
  }

  lemma StepKeepsTerms(b: Book, op: Op)
    ensures Step(b, op).task == b.task && Step(b, op).autoAcceptAfter == b.autoAcceptAfter
    ensures Step(b, op).arbiterAgent == b.arbiterAgent
  {
    hide VerifyReceipt, Expired, TimedOut, Text.Strip;
  }

  lemma {:induction false} TermsFixed(b: Book, ops: seq<Op>)
    ensures Run(b, ops).task == b.task && Run(b, ops).autoAcceptAfter == b.autoAcceptAfter
    ensures Run(b, ops).arbiterAgent == b.arbiterAgent
    decreases |ops|
  {
    hide Step;
    if ops != [] {
      TermsFixed(b, ops[..|ops| - 1]);
      StepKeepsTerms(Run(b, ops[..|ops| - 1]), ops[|ops| - 1]);
    }
  }

  /** Call `i` delivered `receipt`, and a later call released on it: the payer's acceptance, a
      timeout that had been enabled, or, after the payer's stated dispute, a ruling to release
      by the designated arbiter when there is one. */
  ghost predicate Warranted(task: TaskSpec, auto: int, arbiter: int, ops: seq<Op>, i: int, receipt: Receipt,
                            chain: Option<Chain>)
  {
    && 0 <= i < |ops| && Delivers(task, ops[i], receipt, chain)
    && (|| (exists j :: i < j < |ops| && AcceptsOrTimesOut(task, auto, ops[j], receipt))
        || (exists j, k :: i < j < k < |ops| && Disputes(task, ops[j]) && Rules(arbiter, ops[k], true)))
  }

  /** Over all runs, money is ready to move only on a receipt that verified against the task
      before its deadline and a later decision entitled to release it. */
  lemma ReleaseNeedsEvidence(task: TaskSpec, auto: int, arbiter: int, now: int, ops: seq<Op>)
    requires OpenEscrow(task, auto, arbiter, now).Ok?
    requires ReadyToRelease(Run(OpenEscrow(task, auto, arbiter, now).value, ops))
    ensures exists i, receipt, chain :: Warranted(task, auto, arbiter, ops, i, receipt, chain)
  {
    hide Run, Accounted, Warranted;
    RunAccounted(task, auto, arbiter, now, ops);
    TermsFixed(OpenEscrow(task, auto, arbiter, now).value, ops);
    var i := ReleaseWarrant(Run(OpenEscrow(task, auto, arbiter, now).value, ops), ops);
  }

  lemma ReleaseWarrant(b: Book, ops: seq<Op>) returns (i: int)
    requires Accounted(b, ops) && b.state == RELEASED
    ensures b.receipt.Some?
    ensures Warranted(b.task, b.autoAcceptAfter, b.arbiterAgent, ops, i, b.receipt.value, b.chain)
  {
    if exists i, j :: AcceptedAt(b, ops, i, j) {
      var j;
      i, j :| AcceptedAt(b, ops, i, j);
      assert AcceptsOrTimesOut(b.task, b.autoAcceptAfter, ops[j], b.receipt.value);
    } else {
      var j, k;
      i, j, k :| RuledAt(b, ops, i, j, k, true);
      assert Disputes(b.task, ops[j]) && Rules(b.arbiterAgent, ops[k], true);
    }
  }

  /** Funds settle once: a released or refunded escrow never changes again, and neither does one
      that expired through a late delivery. */
  lemma {:induction false} SettledForever(b: Book, ops: seq<Op>)
    requires Terminal(b.state) || b.state == EXPIRED
    ensures Run(b, ops) == b
    decreases |ops|
  {
    if ops != [] { SettledForever(b, ops[..|ops| - 1]); }
  }

  /** An open escrow past its deadline is refunded by a tick, and stranded by a delivery. */
  lemma DeadlineOutcomes(b: Book, receipt: Receipt, chain: Option<Chain>, now: int)
    requires b.state == OPEN && Expired(b.task, now)
    ensures Step(b, TickOp(now)).state == REFUNDED
    ensures forall ops :: Run(Step(b, DeliverOp(receipt, chain, now)), ops).state == EXPIRED
  {
    var late := Step(b, DeliverOp(receipt, chain, now));
    forall ops ensures Run(late, ops).state == EXPIRED { SettledForever(late, ops); }
  }

  // ---- evidence for an arbiter ----

  function EscrowBundle(b: Book, outputRef: string): Bundle
    requires b.receipt.Some?
  {
    EvidenceBundle(b.task, if b.chain.Some? then b.chain.value else EMPTY_CHAIN, b.receipt.value, outputRef)
  }

  /** The bundle of an escrow that holds a receipt re-verifies, then and ever after, exactly when the payee
      presented the call chain; `deliver` also takes a receipt without one. */
  lemma BundleNeedsChain(task: TaskSpec, auto: int, arbiter: int, start: int, ops: seq<Op>, outputRef: string)
    requires OpenEscrow(task, auto, arbiter, start).Ok?
    requires Run(OpenEscrow(task, auto, arbiter, start).value, ops).receipt.Some?
    ensures var b := Run(OpenEscrow(task, auto, arbiter, start).value, ops);
            exists i :: DeliveredAt(b, ops, i) && forall now :: now >= ops[i].now ==>
                 (VerifyBundle(EscrowBundle(b, outputRef), now) == [] <==> b.chain.Some?)
  {
    RunAccounted(task, auto, arbiter, start, ops);
    var b := Run(OpenEscrow(task, auto, arbiter, start).value, ops);
    var i := WhoDelivered(b, ops);
    forall now | now >= ops[i].now
      ensures VerifyBundle(EscrowBundle(b, outputRef), now) == [] <==> b.chain.Some?
    {
      BundleVerifies(b, ops[i].now, now, outputRef);
    }
  }

  lemma WhoDelivered(b: Book, ops: seq<Op>) returns (i: int)
    requires Accounted(b, ops) && b.receipt.Some?
    ensures DeliveredAt(b, ops, i)
  {
    if b.state == DELIVERED {
      i :| DeliveredAt(b, ops, i);
    } else if b.state == DISPUTED {
      var j;
      i, j :| DisputedAt(b, ops, i, j);
    } else if exists i, j :: AcceptedAt(b, ops, i, j) {
      var j;
      i, j :| AcceptedAt(b, ops, i, j);
    } else {
      var release := b.state == RELEASED;
      var j, k;
      i, j, k :| RuledAt(b, ops, i, j, k, release);
    }
  }

  lemma BundleVerifies(b: Book, delivered: int, now: int, outputRef: string)
    requires b.receipt.Some? && now >= delivered
    requires VerifyReceipt(b.receipt.value, b.task, b.chain, None, delivered) == []
    ensures VerifyBundle(EscrowBundle(b, outputRef), now) == [] <==> b.chain.Some?
  {
    var r := b.receipt.value;
    VerifiedReceipt(r, b.task, b.chain, None, delivered);
    VerifiedTerms(r, b.task, delivered);
    VerifiedTerms(r, b.task, now);
    if b.chain.Some? {
      VerifiedEvidence(r, b.chain.value);
      DictRoundTrip(b.chain.value, ToDict(b.chain.value));
      VerifiedReceipt(r, b.task, b.chain, None, now);
    } else {
      DictRoundTrip(EMPTY_CHAIN, ToDict(EMPTY_CHAIN));
      VerifiedReceipt(r, b.task, Some(EMPTY_CHAIN), None, now);
      VerifiedEvidence(r, EMPTY_CHAIN);
    }
  }

  // ---- who signed the delivery ----

  /** `deliver` expects no payee: whichever key signs a receipt that declares that key's own address, the
      delivery is taken or refused alike. */
  lemma AnyKeyDelivers(b: Book, r: Receipt, chain: Option<Chain>, key: nat, other: nat, now: int)
    ensures Deliver(b, SignReceipt(key, r), chain, now).0.state == Deliver(b, SignReceipt(other, r), chain, now).0.state
  {
    hide VerifyReceipt;
    if VerifyReceipt(SignReceipt(key, r), b.task, chain, None, now) == [] {
      AnyKeyVerifies(r, b.task, chain, key, other, now);
    }
    if VerifyReceipt(SignReceipt(other, r), b.task, chain, None, now) == [] {
      AnyKeyVerifies(r, b.task, chain, other, key, now);
    }
  }

  /** Over all runs, the payee's key signed the receipt an escrow holds exactly when the call that
      delivered it would have passed with that payee expected; and, where the receipt declares an address,
      exactly when it declares the payee's. */
  lemma PayeeSignedIff(task: TaskSpec, auto: int, arbiter: int, start: int, ops: seq<Op>, key: nat)
    requires OpenEscrow(task, auto, arbiter, start).Ok?
    requires Run(OpenEscrow(task, auto, arbiter, start).value, ops).receipt.Some?
    ensures var b := Run(OpenEscrow(task, auto, arbiter, start).value, ops);
            var r := b.receipt.value;
            exists i :: && DeliveredAt(b, ops, i)
                        && (r.signature == Sign(key, Message("Delivery", r)) <==>
                            VerifyReceipt(r, b.task, b.chain, Some(Of(key)), ops[i].now) == [])
                        && (r.payeeAddress.Some? ==>
                              (r.signature == Sign(key, Message("Delivery", r)) <==> r.payeeAddress == Some(Of(key))))
  {
    hide Run, Accounted, VerifyReceipt, Message;
    RunAccounted(task, auto, arbiter, start, ops);
    var b := Run(OpenEscrow(task, auto, arbiter, start).value, ops);
    var i := WhoDelivered(b, ops);
    ExpectedPayeeIff(b.receipt.value, b.task, b.chain, key, ops[i].now);
    VerifiedReceipt(b.receipt.value, b.task, b.chain, None, ops[i].now);
    assert DeliveredAt(b, ops, i);
  }

  // ---- the escrow object ----

  class EscrowAccount {
    const task: TaskSpec
    const autoAcceptAfter: int
    const arbiterAgent: int
    var state: State
    var receipt: Option<Receipt>
    var chain: Option<Chain>
    var history: seq<Event>
    var resolution: string

    /** The state in which `open_escrow` returns it. */
    constructor (task: TaskSpec, autoAcceptAfter: int, arbiterAgent: int, now: int)
      requires OpenEscrow(task, autoAcceptAfter, arbiterAgent, now).Ok?
      ensures Snapshot() == OpenEscrow(task, autoAcceptAfter, arbiterAgent, now).value
    {
      this.task, this.autoAcceptAfter, this.arbiterAgent := task, autoAcceptAfter, arbiterAgent;
      state, receipt, chain, resolution := OPEN, None, None, "";
      history := [Event(now, OPEN, task.payerAgent, "funds committed")];
    }

    function Snapshot(): Book
      reads this
    {
      Book(task, state, receipt, chain, history, autoAcceptAfter, arbiterAgent, resolution)
    }

    method MoveTo(next: State, actor: int, note: string, now: int)
      modifies this
      ensures Snapshot() == To(old(Snapshot()), next, actor, note, now)
    {
      state := next;
      history := history + [Event(now, next, actor, note)];
    }

    method DeliverReceipt(r: Receipt, c: Option<Chain>, now: int) returns (outcome: Outcome)
      modifies this
      ensures (Snapshot(), outcome) == Deliver(old(Snapshot()), r, c, now)
    {
      if state != OPEN { return Raised(WrongState); }
      if Expired(task, now) {
        MoveTo(EXPIRED, 0, "deadline passed before delivery", now);
        return Late;
      }
      var problems := VerifyReceipt(r, task, c, None, now);
      if problems != [] {
        history := history + [Event(now, OPEN, task.payeeAgent, "delivery rejected")];
        return Problems(problems);
      }
      receipt, chain := Some(r), c;
      MoveTo(DELIVERED, task.payeeAgent, "receipt verified", now);
      return Problems([]);
    }

    method AcceptDelivery(agent: int, now: int) returns (outcome: Outcome)
      modifies this
      ensures (Snapshot(), outcome) == Accept(old(Snapshot()), agent, now)
    {
      if state != DELIVERED { return Raised(WrongState); }
      if agent != task.payerAgent { return Raised(NotThePayer); }
      MoveTo(ACCEPTED, agent, "accepted by payer", now);
      MoveTo(RELEASED, agent, "funds releasable", now);
      return Moved;
    }

    method DisputeDelivery(agent: int, reason: string, now: int) returns (outcome: Outcome)
      modifies this
      ensures (Snapshot(), outcome) == Dispute(old(Snapshot()), agent, reason, now)
    {
      if state != DELIVERED { return Raised(WrongState); }
      if agent != task.payerAgent { return Raised(NotThePayer); }
      if Text.Strip(reason) == "" { return Raised(NoReason); }
      MoveTo(DISPUTED, agent, "disputed: " + reason, now);
      return Moved;
    }

    method ResolveDispute(agent: int, release: bool, note: string, now: int) returns (outcome: Outcome)
      modifies this
      ensures (Snapshot(), outcome) == Resolve(old(Snapshot()), agent, release, note, now)
    {
      if state != DISPUTED { return Raised(WrongState); }
      if arbiterAgent != 0 && agent != arbiterAgent { return Raised(NotTheArbiter); }
      resolution := note;
      MoveTo(if release then RELEASED else REFUNDED, agent, "arbiter ruling: " + note, now);
      return Moved;
    }

    method AdvanceTime(now: int) returns (s: State)
      modifies this
      ensures Snapshot() == Tick(old(Snapshot()), now) && s == state
    {
      if state == RELEASED || state == REFUNDED { return state; }
      if state == OPEN && Expired(task, now) {
        MoveTo(EXPIRED, 0, "deadline passed with no delivery", now);
        MoveTo(REFUNDED, 0, "auto-refund on expiry", now);
      } else if state == DELIVERED && autoAcceptAfter != 0 && receipt.Some?
        && now >= receipt.value.deliveredAt + autoAcceptAfter {
        MoveTo(ACCEPTED, 0, "auto-accepted after timeout", now);
        MoveTo(RELEASED, 0, "funds releasable", now);
      }
      return state;
    }
  }
}
