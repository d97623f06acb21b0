/** receipts/receipt.py: a task committed to by digest, a hash chain of the calls that did the
    work, and the payee's signed receipt binding the two. */
module Receipts {
  import opened Common
  import opened Hashing
  import opened Signing

  // ---- 1. the commitment ----

  datatype TaskSpec = TaskSpec(taskId: string, payerAgent: int, payeeAgent: int, description: string,
                               acceptance: seq<string>, amountMinor: int, currency: string, rail: string,
                               deadline: int, chainId: int, specVersion: string)

  function TaskDigest(t: TaskSpec): Term {
    Digest(Cons(Str(t.taskId), Cons(Num(t.payerAgent), Cons(Num(t.payeeAgent), Cons(Str(t.description),
           Cons(StrList(t.acceptance), Cons(Num(t.amountMinor), Cons(Str(t.currency), Cons(Str(t.rail),
           Cons(Num(t.deadline), Cons(Num(t.chainId), Str(t.specVersion))))))))))))
  }

  lemma TaskDigestInjective(a: TaskSpec, b: TaskSpec)
    requires TaskDigest(a) == TaskDigest(b)
    ensures a == b
  {
    StrListInjective(a.acceptance, b.acceptance);
  }

  predicate Expired(t: TaskSpec, now: int) { t.deadline != 0 && now > t.deadline }

  // ---- 2. the evidence ----

  datatype CallRecord = CallRecord(index: int, agentId: int, scope: string, tool: string, argsDigest: Term,
                                   resultDigest: Term, ts: int)

  function RecordDigest(r: CallRecord): Term {
    Digest(Cons(Num(r.index), Cons(Num(r.agentId), Cons(Str(r.scope), Cons(Str(r.tool), Cons(r.argsDigest,
           Cons(r.resultDigest, Num(r.ts))))))))
  }

  function Link(prev: Term, recordDigest: Term): Term { Digest(Cat(prev, recordDigest)) }

  /** A chain as a value: its records and the head it claims. */
  datatype Chain = Chain(records: seq<CallRecord>, head: Term)

  const EMPTY_CHAIN := Chain([], GENESIS)

  function Head(records: seq<CallRecord>): Term
    decreases |records|
  {
    if records == [] then GENESIS
    else Link(Head(records[..|records| - 1]), RecordDigest(records[|records| - 1]))
  }

  predicate InOrder(records: seq<CallRecord>) { forall i :: 0 <= i < |records| ==> records[i].index == i }

  predicate VerifyChain(c: Chain) { InOrder(c.records) && Head(c.records) == c.head }

  function Append(c: Chain, r: CallRecord): Result<Chain, Problem> {
    if r.index != |c.records| then Err(OutOfOrder)
    else Ok(Chain(c.records + [r], Link(c.head, RecordDigest(r))))
  }

  /** The head pins the whole history: one more, one fewer, another order or another record
      gives another head. */
  lemma {:induction false} HeadPinsRecords(a: seq<CallRecord>, b: seq<CallRecord>)
    requires Head(a) == Head(b)
    ensures a == b
    decreases |a|
  {
    if a != [] && b != [] {
      HeadPinsRecords(a[..|a| - 1], b[..|b| - 1]);
      assert a == a[..|a| - 1] + [a[|a| - 1]] && b == b[..|b| - 1] + [b[|b| - 1]];
    }
  }

  /** Appends one after another; an append that raises leaves the chain as it was. */
  function AppendAll(c: Chain, attempts: seq<CallRecord>): Chain
    decreases |attempts|
  {
    if attempts == [] then c else
    AppendAll(match Append(c, attempts[0]) case Ok(d) => d case Err(_) => c, attempts[1..])
  }

  lemma AppendKeepsVerified(c: Chain, r: CallRecord)
    requires VerifyChain(c) && Append(c, r).Ok?
    ensures VerifyChain(Append(c, r).value)
  {
    var d := Append(c, r).value;
    assert d.records[..|d.records| - 1] == c.records;
  }

  /** Whatever is appended, in whatever order, the chain verifies. */
  lemma {:induction false} AppendedChainVerifies(c: Chain, attempts: seq<CallRecord>)
    requires VerifyChain(c)
    ensures VerifyChain(AppendAll(c, attempts)) && c.records <= AppendAll(c, attempts).records
    decreases |attempts|
  {
    if attempts != [] {
      match Append(c, attempts[0])
      case Ok(d) =>
        AppendKeepsVerified(c, attempts[0]);
        AppendedChainVerifies(d, attempts[1..]);
      case Err(_) => AppendedChainVerifies(c, attempts[1..]);
    }
  }

  /** The published form. A missing or empty `root` is None. */
  datatype ChainDict = ChainDict(root: Option<Term>, count: int, records: seq<CallRecord>)

  function ToDict(c: Chain): ChainDict { ChainDict(Some(c.head), |c.records|, c.records) }

  function FromDict(d: ChainDict): Result<Chain, Problem> {
    if !InOrder(d.records) then Err(OutOfOrder)
    else if d.root.Some? && Head(d.records) != d.root.value then Err(RootMismatch)
    else Ok(Chain(d.records, Head(d.records)))
  }

  /** Publishing and reading back: every chain that verifies survives, and nothing else comes back. */
  lemma DictRoundTrip(c: Chain, d: ChainDict)
    ensures FromDict(ToDict(c)) == Ok(c) <==> VerifyChain(c)
    ensures FromDict(d).Ok? ==> VerifyChain(FromDict(d).value) && FromDict(d).value.records == d.records
  {
  }

  lemma ChainStart(recs: seq<CallRecord>)
    ensures recs[..0] == [] && Head([]) == GENESIS && InOrder([])
  {
  }

  lemma OneMoreRecord(recs: seq<CallRecord>, i: nat)
    requires i < |recs| && InOrder(recs[..i])
    ensures Head(recs[..i + 1]) == Link(Head(recs[..i]), RecordDigest(recs[i]))
    ensures recs[..i + 1] == recs[..i] + [recs[i]]
    ensures InOrder(recs[..i + 1]) <==> recs[i].index == i
    ensures recs[i].index != i ==> !InOrder(recs)
  {
    hide RecordDigest, Link;
    assert recs[..i + 1][..i] == recs[..i];
  }

  class CallChain {
    var records: seq<CallRecord>
    var head: Term

    constructor ()
      ensures State() == EMPTY_CHAIN
    {
      records, head := [], GENESIS;
    }

    function State(): Chain
      reads this
    {
      Chain(records, head)
    }

    method AppendRecord(r: CallRecord) returns (result: Result<Term, Problem>)
      modifies this
      ensures Append(old(State()), r).Ok? ==> State() == Append(old(State()), r).value && result == Ok(head)
      ensures Append(old(State()), r).Err? ==> State() == old(State()) && result == Err(OutOfOrder)
    {
      if r.index != |records| { return Err(OutOfOrder); }
      head := Link(head, RecordDigest(r));
      records := records + [r];
      return Ok(head);
    }

    method Verify() returns (ok: bool)
      ensures ok <==> VerifyChain(State())
    {
      hide Head, InOrder, RecordDigest, Link;
      ChainStart(records);
      var h := GENESIS;
      var i := 0;
      while i < |records|
        invariant 0 <= i <= |records|
        invariant h == Head(records[..i]) && InOrder(records[..i])
      {
        OneMoreRecord(records, i);
        if records[i].index != i { return false; }
        h := Link(h, RecordDigest(records[i]));
        i := i + 1;
      }
      assert records[..|records|] == records;
      return h == head;
    }

    /** Building from records; null is the error raised for records out of order. */
    static method Load(recs: seq<CallRecord>) returns (chain: CallChain?)
      ensures chain != null ==> fresh(chain)
      ensures chain == null <==> !InOrder(recs)
      ensures chain != null ==> chain.State() == Chain(recs, Head(recs))
    {
      hide Head, InOrder, RecordDigest, Link;
      chain := new CallChain();
      ChainStart(recs);
      var i := 0;
      while i < |recs|
        invariant 0 <= i <= |recs| && chain != null && fresh(chain)
        invariant InOrder(recs[..i]) && chain.State() == Chain(recs[..i], Head(recs[..i]))
      {
        OneMoreRecord(recs, i);
        var r := chain.AppendRecord(recs[i]);
        if r.Err? { return null; }
        i := i + 1;
      }
      assert recs[..|recs|] == recs;
    }
  }

  // ---- 3. the receipt ----

  datatype Receipt = Receipt(taskDigest: Term, callChainRoot: Term, outputDigest: Term, payeeAgent: int,
                             amountMinor: int, deliveredAt: int, callCount: int, chainId: int, specVersion: string,
                             payeeAddress: Option<Address>, signature: Signature, acceptedBy: int,
                             acceptorAddress: Option<Address>, acceptanceSig: Signature)

  datatype Problem =
    | OutOfOrder | RootMismatch
    | OtherTask | OtherPayee | OtherAmount | PastDeadline | InTheFuture
    | ChainTampered | ChainRootDiffers | CallCountDiffers | NoCalls
    | NoSignature | OtherSigner | UnexpectedSigner | NoRecovery | OtherAcceptor | AcceptanceNoRecovery

  function Message(primary: string, r: Receipt): Term {
    Typed("XCPReceipt", primary, r.chainId,
          Cons(r.taskDigest, Cons(r.callChainRoot, Cons(r.outputDigest, Cons(Num(r.payeeAgent), Cons(Num(r.amountMinor),
          Cons(Num(r.deliveredAt), Num(r.callCount))))))))
  }

  /** `Err` is the refusal to build on a chain that does not verify. */
  function BuildReceipt(task: TaskSpec, chain: Chain, output: Term, deliveredAt: int): Result<Receipt, Problem> {
    if !VerifyChain(chain) then Err(ChainTampered)
    else Ok(Receipt(TaskDigest(task), chain.head, Digest(output), task.payeeAgent, task.amountMinor, deliveredAt,
                    |chain.records|, task.chainId, "0.1-draft", None, Unsigned, 0, None, Unsigned))
  }

  function SignReceipt(key: nat, r: Receipt): Receipt {
    r.(payeeAddress := Some(Of(key)), signature := Sign(key, Message("Delivery", r)))
  }

  function AcceptReceipt(key: nat, r: Receipt, payerAgent: int): Receipt {
    r.(acceptedBy := payerAgent, acceptorAddress := Some(Of(key)), acceptanceSig := Sign(key, Message("Acceptance", r)))
  }

  function ChainProblems(r: Receipt, c: Chain): seq<Problem> {
    (if !VerifyChain(c) then [ChainTampered] else [])
    + (if c.head != r.callChainRoot then [ChainRootDiffers] else [])
    + (if |c.records| != r.callCount then [CallCountDiffers] else [])
    + (if |c.records| == 0 then [NoCalls] else [])
  }

  function TermsProblems(r: Receipt, task: TaskSpec, now: int): seq<Problem> {
    (if r.taskDigest != TaskDigest(task) then [OtherTask] else [])
    + (if r.payeeAgent != task.payeeAgent then [OtherPayee] else [])
    + (if r.amountMinor != task.amountMinor then [OtherAmount] else [])
    + (if task.deadline != 0 && r.deliveredAt > task.deadline then [PastDeadline] else [])
    + (if r.deliveredAt > now + 300 then [InTheFuture] else [])
  }

  function SignatureProblems(r: Receipt, expectedPayee: Option<Address>): seq<Problem> {
    if r.signature.Unsigned? then [NoSignature] else
    match Recover(Message("Delivery", r), r.signature)
    case None => [NoRecovery]
    case Some(a) =>
      (if r.payeeAddress.Some? && a != r.payeeAddress.value then [OtherSigner] else [])
      + (if expectedPayee.Some? && a != expectedPayee.value then [UnexpectedSigner] else [])
  }

  function AcceptanceProblems(r: Receipt): seq<Problem> {
    if r.acceptanceSig.Unsigned? then [] else
    match Recover(Message("Acceptance", r), r.acceptanceSig)
    case None => [AcceptanceNoRecovery]
    case Some(a) => if r.acceptorAddress.Some? && a != r.acceptorAddress.value then [OtherAcceptor] else []
  }

  function VerifyReceipt(r: Receipt, task: TaskSpec, chain: Option<Chain>, expectedPayee: Option<Address>, now: int)
    : seq<Problem>
  {
    TermsProblems(r, task, now)
    + (if chain.Some? then ChainProblems(r, chain.value) else [])
    + SignatureProblems(r, expectedPayee)
    + AcceptanceProblems(r)
  }

  method VerifyReceiptSteps(r: Receipt, task: TaskSpec, chain: CallChain?, expectedPayee: Option<Address>, now: int)
    returns (problems: seq<Problem>)
    ensures problems == VerifyReceipt(r, task, if chain == null then None else Some(chain.State()), expectedPayee, now)
  {
    problems := CheckTerms(r, task, now);
    if chain != null {
      problems := CheckEvidence(r, chain, problems);
    }
    problems := problems + SignatureProblems(r, expectedPayee);
    problems := problems + AcceptanceProblems(r);
  }

  method CheckTerms(r: Receipt, task: TaskSpec, now: int) returns (problems: seq<Problem>)
    ensures problems == TermsProblems(r, task, now)
  {
    problems := [];
    if r.taskDigest != TaskDigest(task) { problems := problems + [OtherTask]; }
    if r.payeeAgent != task.payeeAgent { problems := problems + [OtherPayee]; }
    if r.amountMinor != task.amountMinor { problems := problems + [OtherAmount]; }
    if task.deadline != 0 && r.deliveredAt > task.deadline { problems := problems + [PastDeadline]; }
    if r.deliveredAt > now + 300 { problems := problems + [InTheFuture]; }
  }

  method CheckEvidence(r: Receipt, chain: CallChain, soFar: seq<Problem>) returns (problems: seq<Problem>)
    ensures problems == soFar + ChainProblems(r, chain.State())
  {
    problems := soFar;
    var ok := chain.Verify();
    if !ok { problems := problems + [ChainTampered]; }
    if chain.head != r.callChainRoot { problems := problems + [ChainRootDiffers]; }
    if |chain.records| != r.callCount { problems := problems + [CallCountDiffers]; }
    if |chain.records| == 0 { problems := problems + [NoCalls]; }
  }

  lemma VerifiedReceipt(r: Receipt, task: TaskSpec, chain: Option<Chain>, expectedPayee: Option<Address>, now: int)
    ensures VerifyReceipt(r, task, chain, expectedPayee, now) == [] <==>
            && TermsProblems(r, task, now) == []
            && (chain.Some? ==> ChainProblems(r, chain.value) == [])
            && SignatureProblems(r, expectedPayee) == []
            && AcceptanceProblems(r) == []
  {
    var whole := VerifyReceipt(r, task, chain, expectedPayee, now);
    assert whole == [] <==> |whole| == 0;
  }

  /** What expecting a payee adds to the checks: exactly that its key signed this delivery. Without it any
      key will do, as long as the receipt declares that key's address or none. */
  lemma ExpectedPayeeIff(r: Receipt, task: TaskSpec, chain: Option<Chain>, key: nat, now: int)
    ensures VerifyReceipt(r, task, chain, Some(Of(key)), now) == [] <==>
            VerifyReceipt(r, task, chain, None, now) == [] && r.signature == Sign(key, Message("Delivery", r))
  {
    hide TermsProblems, ChainProblems, AcceptanceProblems, Message;
    VerifiedReceipt(r, task, chain, Some(Of(key)), now);
    VerifiedReceipt(r, task, chain, None, now);
    hide VerifyReceipt;
    assert SignatureProblems(r, Some(Of(key))) == [] <==>
           SignatureProblems(r, None) == [] && r.signature == Sign(key, Message("Delivery", r));
  }

  /** With no payee expected, which key signed makes no difference. */
  lemma AnyKeyVerifies(r: Receipt, task: TaskSpec, chain: Option<Chain>, key: nat, other: nat, now: int)
    requires VerifyReceipt(SignReceipt(key, r), task, chain, None, now) == []
    ensures VerifyReceipt(SignReceipt(other, r), task, chain, None, now) == []
  {
    hide ChainProblems;
    var s, t := SignReceipt(key, r), SignReceipt(other, r);
    assert Message("Delivery", s) == Message("Delivery", r) == Message("Delivery", t);
    assert Message("Acceptance", s) == Message("Acceptance", t);
    SameEvidence(r, key, other, chain);
    VerifiedReceipt(s, task, chain, None, now);
    VerifiedReceipt(t, task, chain, None, now);
  }

  lemma SameEvidence(r: Receipt, key: nat, other: nat, chain: Option<Chain>)
    ensures chain.Some? ==>
              ChainProblems(SignReceipt(key, r), chain.value) == ChainProblems(SignReceipt(other, r), chain.value)
  {
  }

  lemma VerifiedTerms(r: Receipt, task: TaskSpec, now: int)
    ensures TermsProblems(r, task, now) == [] <==>
            && r.taskDigest == TaskDigest(task) && r.payeeAgent == task.payeeAgent && r.amountMinor == task.amountMinor
            && (task.deadline == 0 || r.deliveredAt <= task.deadline) && r.deliveredAt <= now + 300
  {
    assert TermsProblems(r, task, now) == [] <==> |TermsProblems(r, task, now)| == 0;
  }

  lemma VerifiedEvidence(r: Receipt, c: Chain)
    ensures ChainProblems(r, c) == [] <==>
            VerifyChain(c) && c.head == r.callChainRoot && |c.records| == r.callCount && |c.records| > 0
  {
    assert ChainProblems(r, c) == [] <==> |ChainProblems(r, c)| == 0;
  }

  /** The honest flow: a receipt built on a verified chain and signed by the payee checks out
      exactly when some call was made, the deadline was kept and the clock is not behind. */
  lemma HonestReceiptVerifies(key: nat, task: TaskSpec, chain: Chain, output: Term, deliveredAt: int, now: int)
    requires VerifyChain(chain)
    ensures var r := SignReceipt(key, BuildReceipt(task, chain, output, deliveredAt).value);
            VerifyReceipt(r, task, Some(chain), Some(Of(key)), now) == [] <==>
            |chain.records| > 0 && (task.deadline == 0 || deliveredAt <= task.deadline) && deliveredAt <= now + 300
  {
    var b := BuildReceipt(task, chain, output, deliveredAt).value;
    var r := SignReceipt(key, b);
    assert Message("Delivery", r) == Message("Delivery", b);
    VerifiedReceipt(r, task, Some(chain), Some(Of(key)), now);
    VerifiedTerms(r, task, now);
    VerifiedEvidence(r, chain);
  }

  /** The payer's countersignature changes nothing about the delivery. */
  lemma AcceptanceKeepsVerified(key: nat, payerAgent: int, r: Receipt, task: TaskSpec, chain: Option<Chain>,
                                expectedPayee: Option<Address>, now: int)
    requires VerifyReceipt(r, task, chain, expectedPayee, now) == []
    ensures VerifyReceipt(AcceptReceipt(key, r, payerAgent), task, chain, expectedPayee, now) == []
  {
    var a := AcceptReceipt(key, r, payerAgent);
    assert Message("Delivery", a) == Message("Delivery", r) && Message("Acceptance", a) == Message("Acceptance", r);
    VerifiedReceipt(r, task, chain, expectedPayee, now);
    VerifiedReceipt(a, task, chain, expectedPayee, now);
  }

  // ---- evidence bundles ----

  datatype Bundle = Bundle(task: TaskSpec, callChain: ChainDict, receipt: Receipt, outputRef: string)

  function EvidenceBundle(task: TaskSpec, chain: Chain, receipt: Receipt, outputRef: string): Bundle {
    Bundle(task, ToDict(chain), receipt, outputRef)
  }

  function VerifyBundle(b: Bundle, now: int): seq<Problem> {
    match FromDict(b.callChain)
    case Err(e) => [e]
    case Ok(chain) => VerifyReceipt(b.receipt, b.task, Some(chain), None, now)
  }

  lemma VerifiedBundle(b: Bundle, now: int)
    requires VerifyBundle(b, now) == []
    ensures InOrder(b.callChain.records) && b.callChain.records != []
    ensures b.receipt.taskDigest == TaskDigest(b.task) && b.receipt.callChainRoot == Head(b.callChain.records)
    ensures b.receipt.payeeAddress.Some? ==>
              Recover(Message("Delivery", b.receipt), b.receipt.signature) == b.receipt.payeeAddress
  {
    var chain := Chain(b.callChain.records, Head(b.callChain.records));
    VerifiedReceipt(b.receipt, b.task, Some(chain), None, now);
    VerifiedTerms(b.receipt, b.task, now);
    VerifiedEvidence(b.receipt, chain);
    var s := SignatureProblems(b.receipt, None);
    assert |s| == 0;
  }

  /** A receipt pins its evidence: two bundles that carry it and both verify hold the same task
      and the same calls in the same order. */
  lemma ReceiptPinsEvidence(a: Bundle, b: Bundle, nowA: int, nowB: int)
    requires VerifyBundle(a, nowA) == [] && VerifyBundle(b, nowB) == []
    requires a.receipt.taskDigest == b.receipt.taskDigest && a.receipt.callChainRoot == b.receipt.callChainRoot
    ensures a.task == b.task && a.callChain.records == b.callChain.records
  {
    VerifiedBundle(a, nowA);
    VerifiedBundle(b, nowB);
    TaskDigestInjective(a.task, b.task);
    HeadPinsRecords(a.callChain.records, b.callChain.records);
  }

  /** So does the payee's signature alone: bundles with one signature by one declared payee agree
      on the task, the calls, the output, the amount and the time. */
  lemma SignaturePinsEvidence(a: Bundle, b: Bundle, nowA: int, nowB: int)
    requires VerifyBundle(a, nowA) == [] && VerifyBundle(b, nowB) == []
    requires a.receipt.signature == b.receipt.signature
    requires a.receipt.payeeAddress.Some? && a.receipt.payeeAddress == b.receipt.payeeAddress
    ensures a.task == b.task && a.callChain.records == b.callChain.records
    ensures a.receipt.outputDigest == b.receipt.outputDigest && a.receipt.amountMinor == b.receipt.amountMinor
    ensures a.receipt.deliveredAt == b.receipt.deliveredAt
  {
    VerifiedBundle(a, nowA);
    VerifiedBundle(b, nowB);
    RecoverPinsMessage(Message("Delivery", a.receipt), Message("Delivery", b.receipt), a.receipt.signature);
    ReceiptPinsEvidence(a, b, nowA, nowB);
  }

  /** What a bundle does not pin: its call count, its stated chain root when left out, and its
      output reference are never read. */
  lemma UnpinnedFields(b: Bundle, now: int, count: int, outputRef: string)
    requires VerifyBundle(b, now) == []
    ensures var calls := ChainDict(None, count, b.callChain.records);
            VerifyBundle(b.(callChain := calls, outputRef := outputRef), now) == []
  {
  }
}
