/** federation/transport.py: paying nodes for routed calls. The ledger keeps private
    receipts and publishes one commitment per epoch; anyone may try to prove it a fraud. */
module Transport {
  import opened Common
  import opened Hashing
  import opened Merkle
  import opened Signing

  datatype RouteClass = A2T | A2A | T2T | WRAP | RELAY

  function ClassText(c: RouteClass): string {
    match c case A2T => "a2t" case A2A => "a2a" case T2T => "t2t" case WRAP => "wrap" case RELAY => "relay"
  }

  /** `payerAddress` is None for the empty text. */
  datatype Receipt = Receipt(
    routeId: string, nodeId: string, payerAgent: int, routeClass: RouteClass, priceMinor: int,
    currency: string, epoch: int, ts: int, scope: string, peerHint: string,
    payerAddress: Option<Address>, signature: Signature)

  function Entry(key: string, value: Term): Term { Cons(Str(key), value) }

  /** What the payer signs and what reaches the tree, with its keys sorted. */
  function BillablePayload(r: Receipt): Term {
    Cons(Entry("class", Str(ClassText(r.routeClass))),
      Cons(Entry("currency", Str(r.currency)),
        Cons(Entry("epoch", Num(r.epoch)),
          Cons(Entry("nodeId", Str(r.nodeId)),
            Cons(Entry("payerAgent", Num(r.payerAgent)),
              Cons(Entry("priceMinor", Num(r.priceMinor)),
                Cons(Entry("routeId", Str(r.routeId)), Nil)))))))
  }

  function Leaf(r: Receipt): Term { Digest(BillablePayload(r)) }

  function LeavesOf(rs: seq<Receipt>): (ls: seq<Term>)
    ensures |ls| == |rs|
    ensures forall i :: 0 <= i < |rs| ==> ls[i] == Leaf(rs[i])
  {
    seq(|rs|, i requires 0 <= i < |rs| => Leaf(rs[i]))
  }

  function Total(rs: seq<Receipt>): int {
    if rs == [] then 0 else rs[0].priceMinor + Total(rs[1..])
  }

  // ---- receipts ----

  datatype Problem =
    | NegativePrice | NoRouteId | OtherNode | MissingSignature | OtherPayer | NoRecovery
    | AlreadyClaimed | EpochClosed

  function Message(payload: Term, chainId: int): Term {
    Typed("XCPTransport", "TransportReceipt", chainId, payload)
  }

  function SignReceipt(key: nat, r: Receipt, chainId: int): Receipt {
    r.(payerAddress := Some(Of(key)), signature := Sign(key, Message(BillablePayload(r), chainId)))
  }

  function VerifyReceipt(r: Receipt, chainId: int, expectedNode: string): seq<Problem> {
    (if r.priceMinor < 0 then [NegativePrice] else [])
    + (if r.routeId == "" then [NoRouteId] else [])
    + (if expectedNode != "" && r.nodeId != expectedNode then [OtherNode] else [])
    + (if r.signature.Unsigned? then [MissingSignature] else
       match Recover(Message(BillablePayload(r), chainId), r.signature)
       case None => [NoRecovery]
       case Some(a) => if r.payerAddress.Some? && a != r.payerAddress.value then [OtherPayer] else [])
  }

  // ---- the tree, as this module's loops compute it ----

  method MerkleRootLoop(leaves: seq<Term>) returns (root: Term)
    ensures root == MerkleRoot(leaves)
  {
    if leaves == [] { return GENESIS; }
    SortedSorts(leaves);
    var level := Sorted(leaves);
    while |level| > 1
      invariant level != [] && Root(level) == MerkleRoot(leaves)
      decreases |level|
    {
      level := LevelUp(level);
    }
    return level[0];
  }

  /** The inner loop: pair neighbours, promote an odd last node unchanged. */
  method LevelUp(level: seq<Term>) returns (next: seq<Term>)
    ensures next == Above(level)
  {
    next := [];
    var i := 0;
    while i < |level|
      invariant 0 <= i && (i <= |level| || i == |level| + 1) && (i < |level| ==> i % 2 == 0)
      invariant next + (if i < |level| then Above(level[i..]) else []) == Above(level)
    {
      ghost var rest := level[i..];
      if i + 1 < |level| {
        assert rest[2..] == level[i + 2..];
        assert Above(rest) == [Pair(level[i], level[i + 1])] + Above(rest[2..]);
        next := next + [Pair(level[i], level[i + 1])];
      } else {
        assert rest == [level[i]];
        next := next + [level[i]];
      }
      i := i + 2;
    }
  }

  method MerkleProofLoop(leaves: seq<Term>, target: Term) returns (r: Result<seq<Term>, string>)
    ensures target !in leaves ==> r == Err("leaf not in the tree")
    ensures target in leaves ==> r == Ok(MerkleProof(leaves, target))
  {
    SortedMember(leaves, target);
    var level := Sorted(leaves);
    if target !in level { return Err("leaf not in the tree"); }
    var proof := SiblingsAbove(level, IndexOf(target, level));
    return Ok(proof);
  }

  /** The walk to the root, collecting the sibling at each level that has one. */
  method SiblingsAbove(start: seq<Term>, index: nat) returns (proof: seq<Term>)
    requires index < |start|
    ensures proof == Path(start, index)
  {
    hide Above, Pair;
    proof := [];
    var level, idx: nat := start, index;
    while |level| > 1
      invariant idx < |level|
      invariant Path(start, index) == proof + Path(level, idx)
      decreases |level|
    {
      AboveAt(level, idx);
      var sib := Sibling(idx);
      ghost var found := if sib < |level| then [level[sib]] else [];
      assert proof + (found + Path(Above(level), idx / 2)) == (proof + found) + Path(Above(level), idx / 2);
      if sib < |level| {
        proof := proof + [level[sib]];
      } else {
        assert proof + found == proof;
      }
      level := LevelUp(level);
      idx := idx / 2;
    }
  }

  method VerifyProofLoop(leaf: Term, proof: seq<Term>, root: Term) returns (ok: bool)
    ensures ok <==> Climb(leaf, proof) == root
  {
    var h := leaf;
    var i := 0;
    while i < |proof|
      invariant 0 <= i <= |proof| && Climb(h, proof[i..]) == Climb(leaf, proof)
    {
      assert proof[i..][1..] == proof[i + 1..];
      h := Pair(h, proof[i]);
      i := i + 1;
    }
    return h == root;
  }

  // ---- the ledger as a state machine ----

  datatype Commitment = Commitment(nodeId: string, epoch: int, root: Term, routeCount: int, totalMinor: int,
                                   currency: string)

  datatype Ledger = Ledger(nodeId: string, chainId: int, receipts: map<int, seq<Receipt>>, claimedRoutes: set<string>,
                           committed: map<int, Commitment>)

  function NewLedger(nodeId: string, chainId: int): Ledger { Ledger(nodeId, chainId, map[], {}, map[]) }

  function Stored(l: Ledger, epoch: int): seq<Receipt> { if epoch in l.receipts then l.receipts[epoch] else [] }

  /** A route count rounded up to the next multiple of `bucket`. */
  function BucketCount(n: nat, bucket: int): (r: int)
    ensures n <= r && (bucket > 1 ==> r < n + bucket && r % bucket == 0) && (bucket <= 1 ==> r == n)
  {
    if bucket <= 1 then n else RoundUp(n, bucket)
  }

  function RoundUp(n: nat, bucket: int): (r: int)
    requires bucket > 1
    ensures n <= r < n + bucket && r % bucket == 0
  {
    var q := (n + bucket - 1) / bucket;
    assert q * bucket + (n + bucket - 1) % bucket == n + bucket - 1;
    MultipleOf(q, bucket);
    q * bucket
  }

  lemma MultipleOf(q: nat, m: int)
    requires m > 0
    ensures q * m % m == 0
  {
    if q > 0 {
      MultipleOf(q - 1, m);
      assert q * m == (q - 1) * m + m;
      ModAdd((q - 1) * m, m);
    }
  }

  lemma ModAdd(x: int, m: int)
    requires m > 0
    ensures (x + m) % m == x % m
  {
    var d := (x + m) / m - x / m - 1;
    assert d * m == x % m - (x + m) % m;
    assert d >= 1 ==> d * m >= m;
    assert d <= -1 ==> d * m <= -m;
  }

  /** The epoch a receipt lands in: its own, or the clock's when it names none. */
  function Placed(r: Receipt, clockEpoch: int): Receipt { r.(epoch := if r.epoch != 0 then r.epoch else clockEpoch) }

  function Refusals(l: Ledger, r: Receipt): seq<Problem> {
    var problems := VerifyReceipt(r, l.chainId, l.nodeId);
    if problems != [] then problems
    else if r.routeId in l.claimedRoutes then [AlreadyClaimed]
    else if r.epoch in l.committed then [EpochClosed]
    else []
  }

  function Record(l: Ledger, r: Receipt, clockEpoch: int): Ledger {
    if Refusals(l, r) != [] then l else
    var p := Placed(r, clockEpoch);
    l.(receipts := l.receipts[p.epoch := Stored(l, p.epoch) + [p]],
       claimedRoutes := l.claimedRoutes + {r.routeId})
  }

  predicate CanCommit(l: Ledger, epoch: int) { Stored(l, epoch) != [] && epoch !in l.committed }

  function CommitmentTo(l: Ledger, epoch: int, rs: seq<Receipt>, bucket: int): Commitment
    requires rs != []
  {
    Commitment(l.nodeId, epoch, MerkleRoot(LeavesOf(rs)), BucketCount(|rs|, bucket), Total(rs), rs[0].currency)
  }

  function Commit(l: Ledger, epoch: int, bucket: int): Ledger {
    if CanCommit(l, epoch)
    then l.(committed := l.committed[epoch := CommitmentTo(l, epoch, Stored(l, epoch), bucket)])
    else l
  }

  datatype Op = RecordOp(receipt: Receipt, clockEpoch: int) | CommitOp(epoch: int, bucket: int)

  function Step(l: Ledger, op: Op): Ledger {
    match op
    case RecordOp(r, clock) => Record(l, r, clock)
    case CommitOp(e, b) => Commit(l, e, b)
  }

  function Run(l: Ledger, ops: seq<Op>): Ledger
    decreases |ops|
  {
    if ops == [] then l else Step(Run(l, ops[..|ops| - 1]), ops[|ops| - 1])
  }

  // ---- what every run keeps ----

  ghost predicate Filed(l: Ledger) {
    && (forall e :: e in l.receipts ==> l.receipts[e] != [])
    && (forall e, i :: e in l.receipts && 0 <= i < |l.receipts[e]| ==> l.receipts[e][i].epoch == e)
    && (forall e, i :: e in l.receipts && 0 <= i < |l.receipts[e]| ==> l.receipts[e][i].routeId in l.claimedRoutes)
    && (forall id :: id in l.claimedRoutes ==>
                       exists e, i :: e in l.receipts && 0 <= i < |l.receipts[e]| && l.receipts[e][i].routeId == id)
  }

  /** No route id occurs twice, in one epoch or in two. */
  ghost predicate RoutesUnique(l: Ledger) {
    forall e, i, f, j ::
      (&& e in l.receipts && 0 <= i < |l.receipts[e]| && f in l.receipts && 0 <= j < |l.receipts[f]|
       && l.receipts[e][i].routeId == l.receipts[f][j].routeId) ==> e == f && i == j
  }

  /** `c` commits to the first `k` receipts of epoch `e`. */
  ghost predicate CommitsTo(c: Commitment, l: Ledger, e: int, k: int) {
    && 0 < k <= |Stored(l, e)|
    && c.nodeId == l.nodeId && c.epoch == e
    && c.root == MerkleRoot(LeavesOf(Stored(l, e)[..k]))
    && c.totalMinor == Total(Stored(l, e)[..k])
    && c.currency == Stored(l, e)[0].currency
    && c.routeCount >= k
  }

  ghost predicate Honest(l: Ledger) {
    Filed(l) && RoutesUnique(l) && forall e :: e in l.committed ==> exists k :: CommitsTo(l.committed[e], l, e, k)
  }

  lemma RecordKeepsRoutesUnique(l: Ledger, r: Receipt, clockEpoch: int)
    requires Filed(l) && RoutesUnique(l)
    ensures RoutesUnique(Record(l, r, clockEpoch))
  {
    hide VerifyReceipt;
    var m := Record(l, r, clockEpoch);
    var p := Placed(r, clockEpoch);
    forall e, i, f, j |
      && e in m.receipts && 0 <= i < |m.receipts[e]| && f in m.receipts && 0 <= j < |m.receipts[f]|
      && m.receipts[e][i].routeId == m.receipts[f][j].routeId
      ensures e == f && i == j
    {
      var oldI := e in l.receipts && i < |l.receipts[e]| && m.receipts[e][i] == l.receipts[e][i];
      var oldJ := f in l.receipts && j < |l.receipts[f]| && m.receipts[f][j] == l.receipts[f][j];
      assert oldI || (e == p.epoch && i == |Stored(l, e)| && m.receipts[e][i] == p);
      assert oldJ || (f == p.epoch && j == |Stored(l, f)| && m.receipts[f][j] == p);
    }
  }

  lemma RecordKeepsFiled(l: Ledger, r: Receipt, clockEpoch: int)
    requires Filed(l)
    ensures Filed(Record(l, r, clockEpoch))
  {
    if Refusals(l, r) == [] {
      var m := Record(l, r, clockEpoch);
      var p := Placed(r, clockEpoch);
      assert m.receipts[p.epoch][|Stored(l, p.epoch)|] == p;
      forall id | id in m.claimedRoutes
        ensures exists e, i :: e in m.receipts && 0 <= i < |m.receipts[e]| && m.receipts[e][i].routeId == id
      {
        if id != r.routeId {
          var e, i :| e in l.receipts && 0 <= i < |l.receipts[e]| && l.receipts[e][i].routeId == id;
          assert m.receipts[e][i] == l.receipts[e][i];
        }
      }
    }
  }

  lemma RecordKeepsHonest(l: Ledger, r: Receipt, clockEpoch: int)
    requires Honest(l)
    ensures Honest(Record(l, r, clockEpoch))
  {
    hide Refusals, MerkleRoot, LeavesOf, Total, Filed, RoutesUnique;
    RecordKeepsFiled(l, r, clockEpoch);
    RecordKeepsRoutesUnique(l, r, clockEpoch);
    var m := Record(l, r, clockEpoch);
    forall e | e in m.committed ensures exists k :: CommitsTo(m.committed[e], m, e, k) {
      var k :| CommitsTo(l.committed[e], l, e, k);
      assert Stored(m, e)[..k] == Stored(l, e)[..k];
      assert CommitsTo(m.committed[e], m, e, k);
    }
  }

  lemma CommitKeepsHonest(l: Ledger, epoch: int, bucket: int)
    requires Honest(l)
    ensures Honest(Commit(l, epoch, bucket))
  {
    hide MerkleRoot, LeavesOf, Total, BucketCount;
    var m := Commit(l, epoch, bucket);
    forall e | e in m.committed ensures exists k :: CommitsTo(m.committed[e], m, e, k) {
      if e in l.committed {
        var k :| CommitsTo(l.committed[e], l, e, k);
        assert CommitsTo(m.committed[e], m, e, k);
      } else {
        assert Stored(l, e)[..|Stored(l, e)|] == Stored(l, e);
        assert CommitsTo(m.committed[e], m, e, |Stored(l, e)|);
      }
    }
  }

  /** Every reachable ledger is honest: `claimedRoutes` is exactly the stored route ids, no id
      is stored twice, and each commitment covers receipts the ledger holds. */
  lemma {:induction false} RunIsHonest(nodeId: string, chainId: int, ops: seq<Op>)
    ensures Honest(Run(NewLedger(nodeId, chainId), ops))
    decreases |ops|
  {
    if ops != [] {
      var before := Run(NewLedger(nodeId, chainId), ops[..|ops| - 1]);
      RunIsHonest(nodeId, chainId, ops[..|ops| - 1]);
      match ops[|ops| - 1]
      case RecordOp(r, clock) => RecordKeepsHonest(before, r, clock);
      case CommitOp(e, b) => CommitKeepsHonest(before, e, b);
    }
  }

  // ---- fraud provers ----

  /** A disclosed route. `receipt` is whatever JSON object the discloser chose. */
  datatype Disclosure = Disclosure(receipt: Term, signature: Signature, payerAddress: Option<Address>, leaf: Term,
                                   proof: seq<Term>, root: Term)

  /** Looking a key up in a JSON object. */
  function Get(obj: Term, key: string): Option<Term> {
    if !obj.Cons? then None
    else if obj.head.Cons? && obj.head.head == Str(key) then Some(obj.head.tail)
    else Get(obj.tail, key)
  }

  predicate JsonObject(t: Term) { t.Cons? || t.Nil? }

  predicate ProveBadSignature(d: Disclosure, chainId: int) {
    match Recover(Message(d.receipt, chainId), d.signature)
    case None => true
    case Some(a) => d.payerAddress != Some(a)
  }

  predicate ProveNotInTree(d: Disclosure) { Climb(d.leaf, d.proof) != d.root }

  predicate ProveDoubleClaim(a: Commitment, b: Commitment, da: Disclosure, db: Disclosure) {
    && a.epoch != b.epoch
    && Get(da.receipt, "routeId") == Get(db.receipt, "routeId")
    && Climb(da.leaf, da.proof) == a.root
    && Climb(db.leaf, db.proof) == b.root
  }

  predicate ProveTotalMismatch(c: Commitment, rs: seq<Receipt>) {
    MerkleRoot(LeavesOf(rs)) == c.root && Total(rs) != c.totalMinor
  }

  lemma LeavesFlat(rs: seq<Receipt>)
    ensures Flat(LeavesOf(rs)) && GENESIS !in LeavesOf(rs)
  {
  }

  function Without(rs: seq<Receipt>, j: nat): seq<Receipt>
    requires j < |rs|
  {
    rs[..j] + rs[j + 1..]
  }

  lemma LeavesWithout(rs: seq<Receipt>, j: nat)
    requires j < |rs|
    ensures multiset(LeavesOf(rs)) == multiset{Leaf(rs[j])} + multiset(LeavesOf(Without(rs, j)))
  {
    var ls := LeavesOf(rs);
    assert ls == ls[..j] + [ls[j]] + ls[j + 1..];
    assert LeavesOf(Without(rs, j)) == ls[..j] + ls[j + 1..];
  }

  lemma FindLeaf(leaf: Term, rs: seq<Receipt>) returns (j: nat)
    requires leaf in multiset(LeavesOf(rs))
    ensures j < |rs| && Leaf(rs[j]) == leaf
    ensures multiset(LeavesOf(Without(rs, j))) == multiset(LeavesOf(rs)) - multiset{leaf}
  {
    assert leaf in LeavesOf(rs);
    j :| 0 <= j < |rs| && LeavesOf(rs)[j] == leaf;
    LeavesWithout(rs, j);
  }

  lemma {:induction false} SameLeavesSameTotal(a: seq<Receipt>, b: seq<Receipt>)
    requires multiset(LeavesOf(a)) == multiset(LeavesOf(b))
    ensures Total(a) == Total(b)
    decreases |a|
  {
    if a == [] {
      assert |multiset(LeavesOf(b))| == 0;
    } else {
      var leaf := LeavesOf(a)[0];
      assert leaf in multiset(LeavesOf(a));
      var i := FindLeaf(leaf, a);
      var j := FindLeaf(leaf, b);
      SameLeavesSameTotal(Without(a, i), Without(b, j));
      TotalWithout(a, i);
      TotalWithout(b, j);
    }
  }

  lemma {:induction false} TotalWithout(rs: seq<Receipt>, j: nat)
    requires j < |rs|
    ensures Total(rs) == rs[j].priceMinor + Total(Without(rs, j))
  {
    if j == 0 {
      assert Without(rs, 0) == rs[1..];
    } else {
      TotalWithout(rs[1..], j - 1);
      assert Without(rs, j)[1..] == Without(rs[1..], j - 1);
    }
  }

  /** No disclosed receipt list whatsoever convicts an honest ledger of a wrong total. */
  lemma NeverConvictedOfTotal(nodeId: string, chainId: int, ops: seq<Op>, e: int, rs: seq<Receipt>)
    requires e in Run(NewLedger(nodeId, chainId), ops).committed
    ensures !ProveTotalMismatch(Run(NewLedger(nodeId, chainId), ops).committed[e], rs)
  {
    var l := Run(NewLedger(nodeId, chainId), ops);
    RunIsHonest(nodeId, chainId, ops);
    var k :| CommitsTo(l.committed[e], l, e, k);
    var mine := Stored(l, e)[..k];
    if MerkleRoot(LeavesOf(rs)) == l.committed[e].root {
      LeavesFlat(rs);
      LeavesFlat(mine);
      RootBinds(LeavesOf(rs), LeavesOf(mine));
      SameLeavesSameTotal(rs, mine);
    }
  }

  lemma RouteIdOfPayload(r: Receipt)
    ensures Get(BillablePayload(r), "routeId") == Some(Str(r.routeId))
  {
    var t := BillablePayload(r);
    var mid := t.tail.tail;
    assert Get(t, "routeId") == Get(t.tail, "routeId") == Get(mid, "routeId") == Get(mid.tail, "routeId");
    var u := t.tail.tail.tail;
    assert Get(u, "routeId") == Get(u.tail, "routeId") == Get(u.tail.tail, "routeId");
    assert Get(u.tail.tail.tail, "routeId") == Some(Str(r.routeId));
  }

  /** A disclosure whose leaf is the digest of its own receipt, and whose proof reaches a
      committed root, discloses a receipt the ledger stored in that epoch. */
  lemma DisclosedIsStored(l: Ledger, e: int, d: Disclosure) returns (i: int)
    requires Honest(l) && e in l.committed
    requires JsonObject(d.receipt) && d.leaf == Digest(d.receipt)
    requires Climb(d.leaf, d.proof) == l.committed[e].root
    ensures e in l.receipts && 0 <= i < |l.receipts[e]| && BillablePayload(l.receipts[e][i]) == d.receipt
    ensures Get(d.receipt, "routeId") == Some(Str(l.receipts[e][i].routeId))
  {
    var k :| CommitsTo(l.committed[e], l, e, k);
    var mine := Stored(l, e)[..k];
    LeavesFlat(mine);
    ProofSound(d.leaf, d.proof, LeavesOf(mine));
    i :| 0 <= i < |mine| && LeavesOf(mine)[i] == d.leaf;
    RouteIdOfPayload(mine[i]);
  }

  /** No two disclosures convict an honest ledger of billing a route twice, as long as each
      disclosed leaf is the digest of the disclosed receipt. */
  lemma NeverConvictedOfDoubleClaim(nodeId: string, chainId: int, ops: seq<Op>, e: int, f: int, da: Disclosure,
                                    db: Disclosure)
    requires e in Run(NewLedger(nodeId, chainId), ops).committed && f in Run(NewLedger(nodeId, chainId), ops).committed
    requires JsonObject(da.receipt) && da.leaf == Digest(da.receipt)
    requires JsonObject(db.receipt) && db.leaf == Digest(db.receipt)
    ensures !ProveDoubleClaim(Run(NewLedger(nodeId, chainId), ops).committed[e],
                              Run(NewLedger(nodeId, chainId), ops).committed[f], da, db)
  {
    var l := Run(NewLedger(nodeId, chainId), ops);
    RunIsHonest(nodeId, chainId, ops);
    if ProveDoubleClaim(l.committed[e], l.committed[f], da, db) {
      var k :| CommitsTo(l.committed[e], l, e, k);
      var m :| CommitsTo(l.committed[f], l, f, m);
      assert e != f;
      var i := DisclosedIsStored(l, e, da);
      var j := DisclosedIsStored(l, f, db);
    }
  }

  /** The digest condition is needed: the prover does not check it, so any two commitments of
      different epochs can be made to look like a double claim. */
  lemma UncheckedLeafConvicts(a: Commitment, b: Commitment, receipt: Term)
    requires a.epoch != b.epoch
    ensures ProveDoubleClaim(a, b, Disclosure(receipt, Unsigned, None, a.root, [], a.root),
                             Disclosure(receipt, Unsigned, None, b.root, [], b.root))
  {
  }

  /** And it is needed on each side: next to any disclosure that reaches its own commitment, one
      unchecked leaf in another epoch is enough. */
  lemma OneUncheckedLeafConvicts(a: Commitment, b: Commitment, da: Disclosure)
    requires a.epoch != b.epoch && Climb(da.leaf, da.proof) == a.root
    ensures var db := Disclosure(da.receipt, Unsigned, None, b.root, [], b.root);
            ProveDoubleClaim(a, b, da, db) && ProveDoubleClaim(b, a, db, da)
  {
  }

  /** So on every run, for any two committed epochs, dropping the condition on either side leaves a pair
      of disclosures that convicts. */
  lemma EachLeafCheckNeeded(nodeId: string, chainId: int, ops: seq<Op>, e: int, f: int)
    requires var l := Run(NewLedger(nodeId, chainId), ops); e in l.committed && f in l.committed && e != f
    ensures var l := Run(NewLedger(nodeId, chainId), ops);
            exists da: Disclosure, db: Disclosure :: && JsonObject(da.receipt) && da.leaf == Digest(da.receipt)
                                                    && ProveDoubleClaim(l.committed[e], l.committed[f], da, db)
                                                    && ProveDoubleClaim(l.committed[f], l.committed[e], db, da)
  {
    hide Run, MerkleRoot, MerkleProof, BillablePayload, Climb;
    var l := Run(NewLedger(nodeId, chainId), ops);
    RunIsHonest(nodeId, chainId, ops);
    var k :| CommitsTo(l.committed[e], l, e, k);
    var m :| CommitsTo(l.committed[f], l, f, m);
    var rs := Stored(l, e)[..k];
    LeafOfMember(rs, rs[0]);
    ProofComplete(LeavesOf(rs), Leaf(rs[0]));
    PayloadIsObject(rs[0]);
    var da := Disclosure(BillablePayload(rs[0]), Unsigned, None, Leaf(rs[0]), MerkleProof(LeavesOf(rs), Leaf(rs[0])),
                         l.committed[e].root);
    OneUncheckedLeafConvicts(l.committed[e], l.committed[f], da);
  }

  lemma PayloadIsObject(r: Receipt)
    ensures JsonObject(BillablePayload(r)) && Leaf(r) == Digest(BillablePayload(r))
  {
  }

  // ---- frozen epochs and conserved money ----

  /** Each commitment still describes everything its epoch holds. */
  ghost predicate Frozen(l: Ledger) {
    forall e :: e in l.committed ==>
                  && l.committed[e].root == MerkleRoot(LeavesOf(Stored(l, e)))
                  && l.committed[e].totalMinor == Total(Stored(l, e))
  }

  /** A commitment over the first k receipts of an epoch describes the epoch only if these are all. */
  lemma CoversAll(l: Ledger, e: int, k: int)
    requires e in l.committed && CommitsTo(l.committed[e], l, e, k)
    ensures l.committed[e].root == MerkleRoot(LeavesOf(Stored(l, e))) <==> k == |Stored(l, e)|
    ensures k == |Stored(l, e)| ==> l.committed[e].totalMinor == Total(Stored(l, e))
  {
    hide MerkleRoot, Total;
    var all := Stored(l, e);
    LeavesFlat(all[..k]);
    LeavesFlat(all);
    assert |multiset(LeavesOf(all[..k]))| == k && |multiset(LeavesOf(all))| == |all|;
    RootBinds(LeavesOf(all[..k]), LeavesOf(all));
    assert k == |all| ==> all[..k] == all;
  }

  /** Stored receipts stay, in their place. */
  lemma StepOnlyAdds(l: Ledger, op: Op, e: int)
    ensures Stored(l, e) <= Stored(Step(l, op), e) && Step(l, op).nodeId == l.nodeId
    ensures e in l.committed ==> e in Step(l, op).committed && Step(l, op).committed[e] == l.committed[e]
  {
    hide Refusals, CommitmentTo;
  }

  /** This record lands in an epoch that is closed. */
  predicate Thaws(l: Ledger, op: Op) {
    op.RecordOp? && Refusals(l, op.receipt) == [] && op.receipt.epoch == 0 && op.clockEpoch in l.committed
  }

  /** A record breaks the freeze exactly when it names no epoch and the clock's is closed. */
  lemma RecordFreezes(l: Ledger, r: Receipt, clockEpoch: int)
    requires Honest(l) && Frozen(l)
    ensures Frozen(Record(l, r, clockEpoch)) <==> !Thaws(l, RecordOp(r, clockEpoch))
  {
    hide MerkleRoot, Total, LeavesOf, VerifyReceipt;
    var m := Record(l, r, clockEpoch);
    if Thaws(l, RecordOp(r, clockEpoch)) {
      var k :| CommitsTo(l.committed[clockEpoch], l, clockEpoch, k);
      CoversAll(l, clockEpoch, k);
      assert Stored(m, clockEpoch)[..k] == Stored(l, clockEpoch)[..k];
      CoversAll(m, clockEpoch, k);
    } else {
      forall e | e in m.committed ensures Stored(m, e) == Stored(l, e) {}
    }
  }

  /** A broken epoch is never mended. */
  lemma ThawedStays(l: Ledger, op: Op)
    requires Honest(l) && !Frozen(l)
    ensures !Frozen(Step(l, op))
  {
    hide MerkleRoot, Total, LeavesOf, Step;
    var m := Step(l, op);
    var e :| e in l.committed && (|| l.committed[e].root != MerkleRoot(LeavesOf(Stored(l, e)))
                                  || l.committed[e].totalMinor != Total(Stored(l, e)));
    var k :| CommitsTo(l.committed[e], l, e, k);
    CoversAll(l, e, k);
    StepOnlyAdds(l, op, e);
    assert Stored(m, e)[..k] == Stored(l, e)[..k];
    CoversAll(m, e, k);
  }

  /** An input that breaks it: two receipts that name no epoch, on either side of the clock's commit. */
  lemma UnnamedEpochThaws(nodeId: string, chainId: int, a: Receipt, b: Receipt, clockEpoch: int, bucket: int)
    requires Refusals(NewLedger(nodeId, chainId), a) == [] && Refusals(NewLedger(nodeId, chainId), b) == []
    requires a.epoch == 0 && b.epoch == 0 && a.routeId != b.routeId && clockEpoch != 0
    ensures !Frozen(Run(NewLedger(nodeId, chainId),
                        [RecordOp(a, clockEpoch), CommitOp(clockEpoch, bucket), RecordOp(b, clockEpoch)]))
  {
    hide VerifyReceipt, MerkleRoot, LeavesOf, BucketCount, Run;
    var none := NewLedger(nodeId, chainId);
    var first, second, third := RecordOp(a, clockEpoch), CommitOp(clockEpoch, bucket), RecordOp(b, clockEpoch);
    RunOfThree(none, first, second, third);
    var open := Record(none, a, clockEpoch);
    var closed := Commit(open, clockEpoch, bucket);
    assert Stored(open, clockEpoch) == [Placed(a, clockEpoch)];
    assert closed.committed.Keys == {clockEpoch} && Refusals(closed, b) == [];
    RunIsHonest(nodeId, chainId, [first, second]);
    assert Frozen(closed);
    assert Thaws(closed, third);
    hide Record, Commit, Refusals;
    RecordFreezes(closed, b, clockEpoch);
  }

  lemma RunOfThree(l: Ledger, first: Op, second: Op, third: Op)
    ensures Run(l, [first, second]) == Step(Step(l, first), second)
    ensures Run(l, [first, second, third]) == Step(Step(Step(l, first), second), third)
  {
    hide Step;
    assert [first][..0] == [] && [first, second][..1] == [first];
    assert [first, second, third][..2] == [first, second];
    assert Run(l, []) == l && Run(l, [first]) == Step(l, first);
  }

  ghost predicate NamesEpochs(ops: seq<Op>) {
    forall i :: 0 <= i < |ops| && ops[i].RecordOp? ==> ops[i].receipt.epoch != 0
  }

  /** Over all runs, committed epochs stay as committed exactly when no accepted record named no epoch
      while the clock's was closed. */
  lemma {:induction false} RunFreezesIff(nodeId: string, chainId: int, ops: seq<Op>)
    ensures Frozen(Run(NewLedger(nodeId, chainId), ops)) <==>
            forall i :: 0 <= i < |ops| ==> !Thaws(Run(NewLedger(nodeId, chainId), ops[..i]), ops[i])
    decreases |ops|
  {
    hide Thaws, Record, Commit, Frozen, Honest;
    var none := NewLedger(nodeId, chainId);
    if ops == [] {
      NewIsFrozen(nodeId, chainId);
    } else {
      var n := |ops| - 1;
      var init, before := ops[..n], Run(none, ops[..n]);
      RunFreezesIff(nodeId, chainId, init);
      RunIsHonest(nodeId, chainId, init);
      assert forall i :: 0 <= i <= n ==> init[..i] == ops[..i];
      StepFreezesIff(before, ops[n]);
    }
  }

  lemma NewIsFrozen(nodeId: string, chainId: int)
    ensures Frozen(Run(NewLedger(nodeId, chainId), []))
  {
  }

  lemma StepFreezesIff(l: Ledger, op: Op)
    requires Honest(l)
    ensures Frozen(Step(l, op)) <==> Frozen(l) && !Thaws(l, op)
  {
    hide MerkleRoot, LeavesOf, Total, Refusals, Honest, BucketCount;
    if !Frozen(l) {
      ThawedStays(l, op);
    } else if op.RecordOp? {
      RecordFreezes(l, op.receipt, op.clockEpoch);
    }
  }

  /** In particular over every run whose receipts name their epoch. */
  lemma RunFreezes(nodeId: string, chainId: int, ops: seq<Op>)
    requires NamesEpochs(ops)
    ensures Frozen(Run(NewLedger(nodeId, chainId), ops))
  {
    hide Frozen, Run;
    RunFreezesIff(nodeId, chainId, ops);
  }

  // ---- who signed what is billed ----

  /** A signed receipt verifies, at every node it names, exactly when it has a route and no negative
      price. */
  lemma SignedReceiptVerifies(key: nat, r: Receipt, chainId: int, node: string)
    ensures VerifyReceipt(SignReceipt(key, r, chainId), chainId, node) == [] <==>
            r.priceMinor >= 0 && r.routeId != "" && (node == "" || r.nodeId == node)
  {
    var s := SignReceipt(key, r, chainId);
    assert BillablePayload(s) == BillablePayload(r);
  }

  /** `r` is what the holder of this key signed for this node, every billable field of it. */
  ghost predicate AuthorisedBy(r: Receipt, key: nat, l: Ledger) {
    && r.signature == Sign(key, Message(BillablePayload(r), l.chainId))
    && r.priceMinor >= 0 && r.routeId != "" && (l.nodeId == "" || r.nodeId == l.nodeId)
  }

  ghost predicate AllVerify(l: Ledger) {
    forall e, i :: e in l.receipts && 0 <= i < |l.receipts[e]| ==>
      VerifyReceipt(l.receipts[e][i], l.chainId, l.nodeId) == []
  }

  lemma StepKeepsVerified(l: Ledger, op: Op)
    requires AllVerify(l) && (op.RecordOp? ==> op.receipt.epoch != 0)
    ensures AllVerify(Step(l, op)) && Step(l, op).chainId == l.chainId && Step(l, op).nodeId == l.nodeId
  {
    hide VerifyReceipt, CommitmentTo;
  }

  lemma {:induction false} RunVerifies(nodeId: string, chainId: int, ops: seq<Op>)
    requires NamesEpochs(ops)
    ensures var l := Run(NewLedger(nodeId, chainId), ops); AllVerify(l) && l.chainId == chainId && l.nodeId == nodeId
    decreases |ops|
  {
    hide Step, VerifyReceipt;
    if ops != [] {
      RunVerifies(nodeId, chainId, ops[..|ops| - 1]);
      StepKeepsVerified(Run(NewLedger(nodeId, chainId), ops[..|ops| - 1]), ops[|ops| - 1]);
    }
  }

  /** A receipt that verifies and declares an address was signed by exactly that address's key. */
  lemma DeclaredIffSigned(l: Ledger, r: Receipt, key: nat)
    requires VerifyReceipt(r, l.chainId, l.nodeId) == [] && r.payerAddress.Some?
    ensures r.payerAddress == Some(Of(key)) <==> AuthorisedBy(r, key, l)
    ensures r.payerAddress == Some(Of(key)) <==> r.signature == Sign(key, Message(BillablePayload(r), l.chainId))
  {
    hide BillablePayload, Message;
  }

  /** Over every run whose receipts name their epoch, what is stored with a declared payer address was
      signed by that address's key, with its price, route, class, payer number, node and epoch. */
  lemma DeclaredAddressSigned(nodeId: string, chainId: int, ops: seq<Op>, e: int, i: int, key: nat)
    requires NamesEpochs(ops)
    requires var l := Run(NewLedger(nodeId, chainId), ops);
             e in l.receipts && 0 <= i < |l.receipts[e]| && l.receipts[e][i].payerAddress == Some(Of(key))
    ensures var l := Run(NewLedger(nodeId, chainId), ops); AuthorisedBy(l.receipts[e][i], key, l)
  {
    hide Run, VerifyReceipt, AuthorisedBy;
    RunVerifies(nodeId, chainId, ops);
    var l := Run(NewLedger(nodeId, chainId), ops);
    DeclaredIffSigned(l, l.receipts[e][i], key);
  }

  // ---- the number billed is not bound to the address that signed ----

  /** Signing with any one key, a receipt is accepted or refused alike whatever payer number it names. */
  lemma PayerNumberUnchecked(l: Ledger, r: Receipt, key: nat, payer: int)
    ensures Refusals(l, SignReceipt(key, r.(payerAgent := payer), l.chainId)) ==
            Refusals(l, SignReceipt(key, r, l.chainId))
  {
    assert BillablePayload(SignReceipt(key, r, l.chainId)) == BillablePayload(r);
    var other := r.(payerAgent := payer);
    assert BillablePayload(SignReceipt(key, other, l.chainId)) == BillablePayload(other);
  }

  /** So any key bills any payer number any price for a fresh route in an open epoch, and the signature
      prover has nothing to say as long as the epoch is named: exactly these are accepted, the payer
      number and the key being free. */
  lemma AnyKeyBillsAnyPayer(l: Ledger, r: Receipt, key: nat, clockEpoch: int)
    ensures Refusals(l, SignReceipt(key, r, l.chainId)) == [] <==>
            && r.priceMinor >= 0 && r.routeId != "" && (l.nodeId == "" || r.nodeId == l.nodeId)
            && r.routeId !in l.claimedRoutes && r.epoch !in l.committed
    ensures Refusals(l, SignReceipt(key, r, l.chainId)) == [] ==>
              var s := Placed(SignReceipt(key, r, l.chainId), clockEpoch);
              s.payerAgent == r.payerAgent && forall rs :: s in rs ==>
                (ProveBadSignature(Disclose(rs, s), l.chainId) <==> r.epoch == 0 && clockEpoch != 0)
  {
    var s := SignReceipt(key, r, l.chainId);
    SignedReceiptVerifies(key, r, l.chainId, l.nodeId);
    hide VerifyReceipt, ProveBadSignature, Disclose;
    if Refusals(l, s) == [] {
      forall rs | Placed(s, clockEpoch) in rs
        ensures ProveBadSignature(Disclose(rs, Placed(s, clockEpoch)), l.chainId) <==> r.epoch == 0 && clockEpoch != 0
      {
        SignatureDefensible(l, s, clockEpoch, rs);
      }
    }
  }

  /** A receipt that declares no address is filed under any payer number too. */
  lemma UndeclaredPayerUnchecked(l: Ledger, r: Receipt, key: nat, payer: int)
    requires Refusals(l, SignReceipt(key, r, l.chainId)) == []
    ensures var other := r.(payerAgent := payer, payerAddress := None,
                            signature := Sign(key, Message(BillablePayload(r.(payerAgent := payer)), l.chainId)));
            Refusals(l, other) == []
  {
    var other := r.(payerAgent := payer);
    SignedReceiptVerifies(key, r, l.chainId, l.nodeId);
    SignedReceiptVerifies(key, other, l.chainId, l.nodeId);
  }

  /** Who holds a payer number is known to the caller as a table; this is the check the ledger does not
      make. */
  predicate DeclaresHolder(r: Receipt, holder: int -> nat) { r.payerAddress == Some(Of(holder(r.payerAgent))) }

  /** For an accepted receipt that declares an address: the declared address is the holder's exactly when
      the holder of the number billed signed it. */
  lemma HolderSignedIff(l: Ledger, r: Receipt, holder: int -> nat)
    requires Refusals(l, r) == [] && r.payerAddress.Some?
    ensures DeclaresHolder(r, holder) <==> AuthorisedBy(r, holder(r.payerAgent), l)
    ensures DeclaresHolder(r, holder) <==>
            r.signature == Sign(holder(r.payerAgent), Message(BillablePayload(r), l.chainId))
  {
    hide VerifyReceipt, AuthorisedBy;
    DeclaredIffSigned(l, r, holder(r.payerAgent));
  }

  /** Everything billed was signed by the holder of the number it is billed to. */
  ghost predicate BilledToHolders(l: Ledger, holder: int -> nat) {
    forall e, i :: e in l.receipts && 0 <= i < |l.receipts[e]| ==>
      AuthorisedBy(l.receipts[e][i], holder(l.receipts[e][i].payerAgent), l)
  }

  ghost predicate DeclaresPayers(ops: seq<Op>) {
    forall i :: 0 <= i < |ops| && ops[i].RecordOp? ==> ops[i].receipt.payerAddress.Some?
  }

  /** If this records anything, the caller checked it against the table. */
  ghost predicate ChecksHolder(l: Ledger, op: Op, holder: int -> nat) {
    op.RecordOp? && Refusals(l, op.receipt) == [] ==> DeclaresHolder(op.receipt, holder)
  }

  lemma RecordBillsIff(l: Ledger, r: Receipt, clockEpoch: int, holder: int -> nat)
    requires Refusals(l, r) == [] && r.epoch != 0
    ensures BilledToHolders(Record(l, r, clockEpoch), holder) <==>
            BilledToHolders(l, holder) && AuthorisedBy(r, holder(r.payerAgent), l)
  {
    hide Refusals, AuthorisedBy;
    var m, e := Record(l, r, clockEpoch), r.epoch;
    SameNode(l, m);
    assert m.receipts[e][|Stored(l, e)|] == r;
    forall f, i | f in l.receipts && 0 <= i < |l.receipts[f]| ensures m.receipts[f][i] == l.receipts[f][i] {}
  }

  lemma SameNode(l: Ledger, m: Ledger)
    requires l.nodeId == m.nodeId && l.chainId == m.chainId
    ensures forall r, key :: AuthorisedBy(r, key, l) <==> AuthorisedBy(r, key, m)
  {
  }

  lemma CommitBillsNobody(l: Ledger, epoch: int, bucket: int, holder: int -> nat)
    ensures BilledToHolders(Commit(l, epoch, bucket), holder) <==> BilledToHolders(l, holder)
  {
    hide CommitmentTo, AuthorisedBy;
    SameNode(l, Commit(l, epoch, bucket));
  }

  lemma StepBillsIff(l: Ledger, op: Op, holder: int -> nat)
    requires op.RecordOp? ==> op.receipt.epoch != 0 && op.receipt.payerAddress.Some?
    ensures BilledToHolders(Step(l, op), holder) <==> BilledToHolders(l, holder) && ChecksHolder(l, op, holder)
  {
    hide BilledToHolders, AuthorisedBy, DeclaresHolder, Commit, VerifyReceipt;
    if op.CommitOp? {
      CommitBillsNobody(l, op.epoch, op.bucket, holder);
    } else if Refusals(l, op.receipt) == [] {
      HolderSignedIff(l, op.receipt, holder);
      RecordBillsIff(l, op.receipt, op.clockEpoch, holder);
    }
  }

  /** No agent is billed for what it did not sign exactly when every accepted receipt was checked against
      the table of holders: over every run whose receipts name their epoch and declare an address. */
  lemma {:induction false} HoldersBilledIff(nodeId: string, chainId: int, ops: seq<Op>, holder: int -> nat)
    requires NamesEpochs(ops) && DeclaresPayers(ops)
    ensures BilledToHolders(Run(NewLedger(nodeId, chainId), ops), holder) <==>
            forall i :: 0 <= i < |ops| ==> ChecksHolder(Run(NewLedger(nodeId, chainId), ops[..i]), ops[i], holder)
    decreases |ops|
  {
    hide ChecksHolder, Step, AuthorisedBy;
    var none := NewLedger(nodeId, chainId);
    if ops != [] {
      var n := |ops| - 1;
      var init := ops[..n];
      HoldersBilledIff(nodeId, chainId, init, holder);
      assert forall i :: 0 <= i <= n ==> init[..i] == ops[..i];
      hide BilledToHolders;
      StepBillsIff(Run(none, init), ops[n], holder);
    }
  }

  function Totals(receipts: map<int, seq<Receipt>>): map<int, int> { map e | e in receipts :: Total(receipts[e]) }

  function CommittedTotals(committed: map<int, Commitment>): map<int, int> {
    map e | e in committed :: committed[e].totalMinor
  }

  /** Conservation: as long as committed epochs are as committed, everything earned is either in a
      commitment or in an open epoch. */
  lemma MoneyConserved(nodeId: string, chainId: int, ops: seq<Op>)
    requires Frozen(Run(NewLedger(nodeId, chainId), ops))
    ensures var l := Run(NewLedger(nodeId, chainId), ops);
            && l.committed.Keys <= l.receipts.Keys
            && SumOver(l.receipts.Keys, Totals(l.receipts)) ==
               SumOver(l.committed.Keys, CommittedTotals(l.committed)) +
               SumOver(l.receipts.Keys - l.committed.Keys, Totals(l.receipts))
  {
    var l := Run(NewLedger(nodeId, chainId), ops);
    RunIsHonest(nodeId, chainId, ops);
    forall e | e in l.committed ensures e in l.receipts {
      var k :| CommitsTo(l.committed[e], l, e, k);
    }
    var open := l.receipts.Keys - l.committed.Keys;
    assert l.committed.Keys + open == l.receipts.Keys;
    SumOverSplit(l.committed.Keys, open, Totals(l.receipts));
    SumOverSame(l.committed.Keys, Totals(l.receipts), CommittedTotals(l.committed));
  }

  // ---- disclosure ----

  function FindRoute(rs: seq<Receipt>, routeId: string): Option<Receipt> {
    if rs == [] then None else if rs[0].routeId == routeId then Some(rs[0]) else FindRoute(rs[1..], routeId)
  }

  lemma {:induction false} FindRouteFinds(rs: seq<Receipt>, routeId: string)
    ensures FindRoute(rs, routeId).Some? <==> exists i :: 0 <= i < |rs| && rs[i].routeId == routeId
    ensures FindRoute(rs, routeId).Some? ==>
              FindRoute(rs, routeId).value in rs && FindRoute(rs, routeId).value.routeId == routeId
  {
    if rs != [] {
      FindRouteFinds(rs[1..], routeId);
      if exists i :: 0 <= i < |rs| && rs[i].routeId == routeId {
        var i :| 0 <= i < |rs| && rs[i].routeId == routeId;
        if i > 0 { assert rs[1..][i - 1].routeId == routeId; }
      }
    }
  }

  lemma LeafOfMember(rs: seq<Receipt>, target: Receipt)
    requires target in rs
    ensures Leaf(target) in LeavesOf(rs)
  {
    var i :| 0 <= i < |rs| && rs[i] == target;
    assert LeavesOf(rs)[i] == Leaf(target);
  }

  /** What `prove` discloses of a stored route. */
  function Disclose(rs: seq<Receipt>, target: Receipt): Disclosure
    requires target in rs
  {
    LeafOfMember(rs, target);
    Disclosure(BillablePayload(target), target.signature, target.payerAddress, Leaf(target),
               MerkleProof(LeavesOf(rs), Leaf(target)), MerkleRoot(LeavesOf(rs)))
  }

  /** Every stored route can be disclosed, the disclosure is in its own tree, and in a frozen
      ledger its proof verifies against the committed root. */
  lemma StoredIsProvable(l: Ledger, e: int, i: int)
    requires Honest(l) && e in l.receipts && 0 <= i < |l.receipts[e]|
    ensures FindRoute(Stored(l, e), l.receipts[e][i].routeId) == Some(l.receipts[e][i])
    ensures !ProveNotInTree(Disclose(Stored(l, e), l.receipts[e][i]))
    ensures Frozen(l) && e in l.committed ==>
              Climb(Leaf(l.receipts[e][i]), Disclose(Stored(l, e), l.receipts[e][i]).proof) == l.committed[e].root
  {
    var rs := l.receipts[e];
    FindRouteFinds(rs, rs[i].routeId);
    var found := FindRoute(rs, rs[i].routeId).value;
    var j :| 0 <= j < |rs| && rs[j] == found;
    assert i == j;
    assert LeavesOf(rs)[i] == Leaf(rs[i]);
    ProofComplete(LeavesOf(rs), Leaf(rs[i]));
  }

  /** A recorded route survives the signature prover exactly when the receipt declared its
      payer and was filed under the epoch the payer signed. */
  lemma SignatureDefensible(l: Ledger, r: Receipt, clockEpoch: int, rs: seq<Receipt>)
    requires Refusals(l, r) == [] && Placed(r, clockEpoch) in rs
    ensures ProveBadSignature(Disclose(rs, Placed(r, clockEpoch)), l.chainId) <==>
            r.payerAddress.None? || (r.epoch == 0 && clockEpoch != 0)
  {
    var p := Placed(r, clockEpoch);
    var signed := Recover(Message(BillablePayload(r), l.chainId), r.signature);
    assert signed.Some? && (r.payerAddress.Some? ==> signed == r.payerAddress);
    if r.epoch == 0 && clockEpoch != 0 {
      assert BillablePayload(p) != BillablePayload(r) by {
        assert BillablePayload(p).tail.tail.head == Entry("epoch", Num(clockEpoch));
        assert BillablePayload(r).tail.tail.head == Entry("epoch", Num(0));
      }
      if Recover(Message(BillablePayload(p), l.chainId), r.signature) == signed {
        RecoverPinsMessage(Message(BillablePayload(p), l.chainId), Message(BillablePayload(r), l.chainId), r.signature);
      }
    } else {
      assert p == r;
    }
  }

  // ---- the ledger object ----

  class RoutingLedger {
    const nodeId: string
    const chainId: int
    var receipts: map<int, seq<Receipt>>
    var claimedRoutes: set<string>
    var committed: map<int, Commitment>

    constructor (nodeId: string, chainId: int)
      ensures State() == NewLedger(nodeId, chainId)
    {
      this.nodeId, this.chainId := nodeId, chainId;
      receipts, claimedRoutes, committed := map[], {}, map[];
    }

    function State(): Ledger
      reads this
    {
      Ledger(nodeId, chainId, receipts, claimedRoutes, committed)
    }

    method RecordReceipt(receipt: Receipt, clockEpoch: int) returns (problems: seq<Problem>)
      modifies this
      ensures problems == Refusals(old(State()), receipt)
      ensures State() == Record(old(State()), receipt, clockEpoch)
    {
      problems := VerifyReceipt(receipt, chainId, nodeId);
      if problems != [] { return; }
      if receipt.routeId in claimedRoutes { return [AlreadyClaimed]; }
      if receipt.epoch in committed { return [EpochClosed]; }
      var ep := if receipt.epoch != 0 then receipt.epoch else clockEpoch;
      var filed := receipt.(epoch := ep);
      if ep !in receipts { receipts := receipts[ep := []]; }
      receipts := receipts[ep := receipts[ep] + [filed]];
      claimedRoutes := claimedRoutes + {receipt.routeId};
    }

    method CommitEpoch(epoch: int, bucket: int) returns (r: Result<Commitment, string>)
      modifies this
      ensures State() == Commit(old(State()), epoch, bucket)
      ensures r.Ok? <==> CanCommit(old(State()), epoch)
      ensures r.Ok? ==> committed == old(committed)[epoch := r.value]
    {
      var rs := if epoch in receipts then receipts[epoch] else [];
      if rs == [] { return Err("nothing to commit"); }
      if epoch in committed { return Err("already committed"); }
      var root := MerkleRootLoop(LeavesOf(rs));
      var total := SumPrices(rs);
      var c := Commitment(nodeId, epoch, root, BucketCount(|rs|, bucket), total, rs[0].currency);
      committed := committed[epoch := c];
      return Ok(c);
    }

    method Prove(epoch: int, routeId: string) returns (r: Result<Disclosure, string>)
      ensures r.Ok? <==> FindRoute(Stored(State(), epoch), routeId).Some?
      ensures r.Ok? ==> var rs, t := Stored(State(), epoch), FindRoute(Stored(State(), epoch), routeId).value;
                        t in rs && r.value == Disclose(rs, t)
    {
      var rs := if epoch in receipts then receipts[epoch] else [];
      FindRouteFinds(rs, routeId);
      match FindRoute(rs, routeId)
      case None => return Err("no such route in that epoch");
      case Some(target) =>
        var leaves := LeavesOf(rs);
        LeafOfMember(rs, target);
        var proof := MerkleProofLoop(leaves, Leaf(target));
        var root := MerkleRootLoop(leaves);
        return Ok(Disclosure(BillablePayload(target), target.signature, target.payerAddress, Leaf(target),
                             proof.value, root));
    }

    /** The total of one epoch, or of all of them. */
    method Earnings(epoch: Option<int>) returns (totalMinor: int)
      ensures epoch.Some? ==> totalMinor == Total(Stored(State(), epoch.value))
      ensures epoch.None? ==> totalMinor == SumOver(receipts.Keys, Totals(receipts))
    {
      match epoch
      case Some(e) => totalMinor := SumPrices(if e in receipts then receipts[e] else []);
      case None =>
        totalMinor := 0;
        var todo := receipts.Keys;
        while exists e :: e in todo
          invariant todo <= receipts.Keys
          invariant totalMinor + SumOver(todo, Totals(receipts)) == SumOver(receipts.Keys, Totals(receipts))
          decreases |todo|
        {
          var e :| e in todo;
          SumOverPick(todo, e, Totals(receipts));
          var t := SumPrices(receipts[e]);
          totalMinor := totalMinor + t;
          todo := todo - {e};
        }
    }
  }

  method SumPrices(rs: seq<Receipt>) returns (total: int)
    ensures total == Total(rs)
  {
    total := 0;
    var i := 0;
    while i < |rs|
      invariant 0 <= i <= |rs| && total + Total(rs[i..]) == Total(rs)
    {
      total := total + rs[i].priceMinor;
      i := i + 1;
    }
  }
}
