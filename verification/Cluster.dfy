/** federation/cluster.py: a private federation's membership, committed to by a Merkle root
    in a signed charter. A peer checks a member's proof against the root in its own charter. */
module Cluster {
  import opened Common
  import opened Hashing
  import opened Merkle
  import opened Signing
  import opened Text

  /** The text of an id. `Hex` is 0x and 64 hex digits (`spelling` 0 is lower case), `NotHex`
      has that prefix and length but other characters, `Malformed` has neither. */
  datatype Id = Hex(word: Term, spelling: nat) | NotHex(text: nat, spelling: nat) | Malformed(junk: string)

  /** `ValueError` is what bytes.fromhex raises; nothing here catches it. */
  datatype Error = BadId | NoMembers | NotAMember | Duplicate | EpochTooLow | ValueError

  function LowerId(id: Id): Id {
    match id case Hex(w, _) => Hex(w, 0) case NotHex(t, _) => NotHex(t, 0) case Malformed(j) => Malformed(Lower(j))
  }

  /** The words of ids that are all hex. */
  function Words(ids: seq<Id>): (ws: seq<Term>)
    requires forall id :: id in ids ==> id.Hex?
    ensures |ws| == |ids| && forall i :: 0 <= i < |ids| ==> ws[i] == ids[i].word
  {
    seq(|ids|, i requires 0 <= i < |ids| => ids[i].word)
  }

  predicate AllHex(ids: seq<Id>) { forall id :: id in ids ==> id.Hex? }

  /** `membership_root`. With two leaves or more every leaf is hashed, so a leaf that is not
      hex raises; a single leaf is its own root and is never hashed. */
  function MembershipRoot(leaves: seq<Id>): Result<Id, Error> {
    if leaves == [] then Err(NoMembers)
    else if exists id :: id in leaves && id.Malformed? then Err(BadId)
    else if AllHex(leaves) then Ok(Hex(MerkleRoot(Words(leaves)), 0))
    else if |leaves| == 1 then Ok(LowerId(leaves[0]))
    else Err(ValueError)
  }

  function Spell(ws: seq<Term>): seq<Id> { seq(|ws|, i requires 0 <= i < |ws| => Hex(ws[i], 0)) }

  function MembershipProof(leaves: seq<Id>, target: Id): Result<seq<Id>, Error> {
    if target.Malformed? || (exists id :: id in leaves && id.Malformed?) then Err(BadId)
    else if !(exists id :: id in leaves && LowerId(id) == LowerId(target)) then Err(NotAMember)
    else if AllHex(leaves) then TargetInWords(leaves, target); Ok(Spell(MerkleProof(Words(leaves), target.word)))
    else if |leaves| == 1 then Ok([])
    else Err(ValueError)
  }

  lemma TargetInWords(leaves: seq<Id>, target: Id)
    requires AllHex(leaves) && exists id :: id in leaves && LowerId(id) == LowerId(target)
    ensures target.Hex? && target.word in Words(leaves)
  {
    var id :| id in leaves && LowerId(id) == LowerId(target);
    var i :| 0 <= i < |leaves| && leaves[i] == id;
    assert Words(leaves)[i] == target.word;
  }

  function ClimbIds(h: Id, proof: seq<Id>): Result<Id, Error>
    decreases |proof|
  {
    if proof == [] then Ok(h)
    else if proof[0].Malformed? then Err(BadId)
    else if !h.Hex? || !proof[0].Hex? then Err(ValueError)
    else ClimbIds(Hex(Pair(h.word, proof[0].word), 0), proof[1..])
  }

  function VerifyMembershipProof(nodeId: Id, proof: seq<Id>, root: Id): Result<bool, Error> {
    if nodeId.Malformed? then Err(BadId) else
    match ClimbIds(LowerId(nodeId), proof)
    case Err(e) => Err(e)
    case Ok(h) => Ok(h == LowerId(root))
  }

  lemma {:induction false} ClimbIdsIsClimb(h: Term, proof: seq<Id>)
    ensures ClimbIds(Hex(h, 0), proof).Ok? <==> AllHex(proof)
    ensures AllHex(proof) ==> ClimbIds(Hex(h, 0), proof) == Ok(Hex(Climb(h, Words(proof)), 0))
    decreases |proof|
  {
    if proof != [] && proof[0].Hex? {
      ClimbIdsIsClimb(Pair(h, proof[0].word), proof[1..]);
      assert AllHex(proof) <==> AllHex(proof[1..]) by { assert proof == [proof[0]] + proof[1..]; }
      if AllHex(proof) { assert Words(proof)[1..] == Words(proof[1..]); }
    } else if proof != [] {
      assert proof[0] in proof;
    }
  }

  // ---- the loops of this module, which do not share transport's code ----

  /** One level, as a list comprehension. */
  function LevelComprehension(level: seq<Term>): seq<Term> {
    seq((|level| + 1) / 2, i requires 0 <= i < (|level| + 1) / 2 =>
      if 2 * i + 1 < |level| then Pair(level[2 * i], level[2 * i + 1]) else level[2 * i])
  }

  lemma ComprehensionIsAbove(level: seq<Term>)
    ensures LevelComprehension(level) == Above(level)
  {
    hide Above, Pair;
    forall i | 0 <= i < |Above(level)| ensures LevelComprehension(level)[i] == Above(level)[i] {
      AboveAt(level, 2 * i);
    }
  }

  method NextLevel(level: seq<Term>) returns (next: seq<Term>)
    ensures next == Above(level)
  {
    ComprehensionIsAbove(level);
    next := LevelComprehension(level);
  }

  method RootLoop(leaves: seq<Id>) returns (r: Result<Id, Error>)
    ensures r == MembershipRoot(leaves)
  {
    if leaves == [] { return Err(NoMembers); }
    if exists id :: id in leaves && id.Malformed? { return Err(BadId); }
    if !AllHex(leaves) {
      if |leaves| == 1 { return Ok(LowerId(leaves[0])); }
      return Err(ValueError);
    }
    SortedSorts(Words(leaves));
    var level := Sorted(Words(leaves));
    while |level| > 1
      invariant level != [] && Root(level) == MerkleRoot(Words(leaves))
      decreases |level|
    {
      level := NextLevel(level);
    }
    return Ok(Hex(level[0], 0));
  }

  method ProofLoop(start: seq<Term>, index: nat) returns (proof: seq<Term>)
    requires index < |start|
    ensures proof == Path(start, index)
  {
    hide Above, Pair;
    proof := [];
    var level, idx: nat := start, index;
    while |level| > 1
      invariant idx < |level|
      invariant Path(start, index) == proof + Path(level, idx)
      decreases |level|
    {
      AboveAt(level, idx);
      var sib := Sibling(idx);
      ghost var found := if sib < |level| then [level[sib]] else [];
      assert proof + (found + Path(Above(level), idx / 2)) == (proof + found) + Path(Above(level), idx / 2);
      if sib < |level| {
        proof := proof + [level[sib]];
      } else {
        assert proof + found == proof;
      }
      level := NextLevel(level);
      idx := idx / 2;
    }
  }

  /** `membership_proof`, for a target in any letter case. */
  method ProveMembership(leaves: seq<Id>, target: Id) returns (r: Result<seq<Id>, Error>)
    ensures r == MembershipProof(leaves, target)
  {
    if target.Malformed? || (exists id :: id in leaves && id.Malformed?) { return Err(BadId); }
    if !(exists id :: id in leaves && LowerId(id) == LowerId(target)) { return Err(NotAMember); }
    if !AllHex(leaves) {
      if |leaves| == 1 { return Ok([]); }
      return Err(ValueError);
    }
    TargetInWords(leaves, target);
    SortedMember(Words(leaves), target.word);
    var level := Sorted(Words(leaves));
    var proof := ProofLoop(level, IndexOf(target.word, level));
    return Ok(Spell(proof));
  }

  method VerifyLoop(nodeId: Id, proof: seq<Id>, root: Id) returns (r: Result<bool, Error>)
    ensures r == VerifyMembershipProof(nodeId, proof, root)
  {
    if nodeId.Malformed? { return Err(BadId); }
    var h := LowerId(nodeId);
    var i := 0;
    while i < |proof|
      invariant 0 <= i <= |proof| && ClimbIds(h, proof[i..]) == ClimbIds(LowerId(nodeId), proof)
    {
      assert proof[i..][1..] == proof[i + 1..];
      if proof[i].Malformed? { return Err(BadId); }
      if !h.Hex? || !proof[i].Hex? { return Err(ValueError); }
      h := Hex(Pair(h.word, proof[i].word), 0);
      i := i + 1;
    }
    return Ok(h == LowerId(root));
  }

  // ---- member sets ----

  const MIN_LEAVES := 2

  datatype MemberSet = MemberSet(clusterId: string, nodeIds: seq<Id>, pads: seq<Id>) {
    function Leaves(): seq<Id> { nodeIds + pads }
  }

  predicate Distinct(ids: seq<Id>) { forall i, j :: 0 <= i < j < |ids| ==> ids[i] != ids[j] }

  /** `entropy` stands for the random words the pads are drawn from. */
  function BuildMemberSet(clusterId: string, nodeIds: seq<Id>, entropy: seq<Term>): Result<MemberSet, Error>
    requires |entropy| >= MIN_LEAVES
  {
    if exists id :: id in nodeIds && id.Malformed? then Err(BadId) else
    var ids := seq(|nodeIds|, i requires 0 <= i < |nodeIds| => LowerId(nodeIds[i]));
    if ids == [] then Err(NoMembers)
    else if !Distinct(ids) then Err(Duplicate)
    else Ok(MemberSet(clusterId, ids, Spell(entropy[..if |ids| < MIN_LEAVES then MIN_LEAVES - |ids| else 0])))
  }

  // ---- charters ----

  datatype Charter = Charter(clusterId: string, membershipRoot: Id, policyHash: string, epoch: int, notBefore: int,
                             notAfter: int, authority: Address, open: bool, signature: Signature)

  datatype Problem =
    | OtherCluster | OtherAuthority | NotActive | RolledBack | BadRoot | NoSignature | BadSignature | OtherSigner
    | OtherNode | StaleEpoch | BadProofText | ProofFails
    | OtherAudience | Expired | FromTheFuture | TooLong | NotTheNode

  function IdTerm(id: Id): Term {
    match id
    case Hex(w, s) => Cons(Num(0), Cons(w, Num(s)))
    case NotHex(t, s) => Cons(Num(1), Cons(Num(t), Num(s)))
    case Malformed(j) => Cons(Num(2), Str(j))
  }

  function CharterMessage(c: Charter, chainId: int): Term {
    Typed("XCPClusterCharter", "ClusterCharter", chainId,
          Cons(Str(c.clusterId), Cons(IdTerm(c.membershipRoot), Cons(Str(c.policyHash), Cons(Num(c.epoch),
          Cons(Num(c.notBefore), Cons(Num(c.notAfter), Cons(Flag(c.open), Nil))))))))
  }

  function SignCharter(key: nat, ms: MemberSet, policyHash: string, epoch: int, open: bool, ttl: int, now: int,
                       chainId: int): Result<Charter, Error>
  {
    if epoch < 1 then Err(EpochTooLow) else
    match MembershipRoot(ms.Leaves())
    case Err(e) => Err(e)
    case Ok(root) =>
      var c := Charter(ms.clusterId, root, policyHash, epoch, now, now + ttl, Of(key), open, Unsigned);
      Ok(c.(signature := Sign(key, CharterMessage(c, chainId))))
  }

  /** An empty expectation is not checked. */
  function VerifyCharter(c: Charter, expectedCluster: string, expectedAuthority: Option<Address>, minEpoch: int,
                         now: int, chainId: int): seq<Problem>
  {
    (if expectedCluster != "" && Lower(c.clusterId) != Lower(expectedCluster) then [OtherCluster] else [])
    + (if expectedAuthority.Some? && c.authority != expectedAuthority.value then [OtherAuthority] else [])
    + (if c.notBefore <= now <= c.notAfter then [] else [NotActive])
    + (if c.epoch < minEpoch then [RolledBack] else [])
    + (if c.membershipRoot.Malformed? then [BadRoot] else [])
    + (if c.signature.Unsigned? then [NoSignature] else
       match Recover(CharterMessage(c, chainId), c.signature)
       case None => [BadSignature]
       case Some(a) => if a != c.authority then [OtherSigner] else [])
  }

  /** What the authority signs verifies, for as long as it says, until a higher epoch is required. */
  lemma SignedCharterVerifies(key: nat, ms: MemberSet, policyHash: string, epoch: int, open: bool, ttl: int,
                              signedAt: int, chainId: int, minEpoch: int, now: int)
    requires SignCharter(key, ms, policyHash, epoch, open, ttl, signedAt, chainId).Ok?
    ensures var c := SignCharter(key, ms, policyHash, epoch, open, ttl, signedAt, chainId).value;
            VerifyCharter(c, ms.clusterId, Some(Of(key)), minEpoch, now, chainId) == [] <==>
            signedAt <= now <= signedAt + ttl && minEpoch <= epoch
  {
    var c := SignCharter(key, ms, policyHash, epoch, open, ttl, signedAt, chainId).value;
    assert CharterMessage(c.(signature := Unsigned), chainId) == CharterMessage(c, chainId);
  }

  /** A charter that verifies for an authority's key was signed by it, field for field; so two
      that carry the same signature agree on everything a peer acts on. */
  lemma VerifiedCharterIsTheAuthoritys(c: Charter, d: Charter, key: nat, minEpoch: int, now: int, chainId: int)
    requires VerifyCharter(c, "", Some(Of(key)), minEpoch, now, chainId) == []
    requires VerifyCharter(d, "", Some(Of(key)), minEpoch, now, chainId) == []
    ensures c.signature == Sign(key, CharterMessage(c, chainId))
    ensures c.epoch >= minEpoch
    ensures c.signature == d.signature ==> c == d
  {
    if c.signature == d.signature {
      assert CharterMessage(c, chainId) == CharterMessage(d, chainId);
      assert IdTerm(c.membershipRoot) == IdTerm(d.membershipRoot);
    }
  }

  // ---- claims ----

  datatype Claim = Claim(clusterId: string, nodeId: Id, epoch: int, proof: seq<Id>)

  function IssueClaim(ms: MemberSet, nodeId: Id, epoch: int): Result<Claim, Error> {
    if nodeId.Malformed? then Err(BadId) else
    match MembershipProof(ms.Leaves(), nodeId)
    case Err(e) => Err(e)
    case Ok(proof) => Ok(Claim(ms.clusterId, LowerId(nodeId), epoch, proof))
  }

  function ClaimProblems(charter: Charter, claim: Claim, expectedNode: Option<Id>): seq<Problem> {
    (if Lower(claim.clusterId) != Lower(charter.clusterId) then [OtherCluster] else [])
    + (if expectedNode.Some? && LowerId(claim.nodeId) != LowerId(expectedNode.value) then [OtherNode] else [])
    + (if claim.epoch < charter.epoch then [StaleEpoch] else [])
  }

  /** `Err` is the exception that escapes. */
  function VerifyMember(charter: Charter, claim: Claim, expectedNode: Option<Id>): Result<seq<Problem>, Error> {
    var problems := ClaimProblems(charter, claim, expectedNode);
    match VerifyMembershipProof(claim.nodeId, claim.proof, charter.membershipRoot)
    case Err(ValueError) => Err(ValueError)
    case Err(_) => Ok(problems + [BadProofText])
    case Ok(ok) => Ok(if ok then problems else problems + [ProofFails])
  }

  lemma VerifyMemberClean(charter: Charter, claim: Claim, expectedNode: Option<Id>)
    ensures VerifyMember(charter, claim, expectedNode) == Ok([]) <==>
            && Lower(claim.clusterId) == Lower(charter.clusterId)
            && (expectedNode.Some? ==> LowerId(claim.nodeId) == LowerId(expectedNode.value))
            && claim.epoch >= charter.epoch
            && VerifyMembershipProof(claim.nodeId, claim.proof, charter.membershipRoot) == Ok(true)
  {
    var problems := ClaimProblems(charter, claim, expectedNode);
    assert problems == [] <==> |problems| == 0;
  }

  method VerifyMemberSteps(charter: Charter, claim: Claim, expectedNode: Option<Id>)
    returns (r: Result<seq<Problem>, Error>)
    ensures r == VerifyMember(charter, claim, expectedNode)
  {
    var problems: seq<Problem> := [];
    if Lower(claim.clusterId) != Lower(charter.clusterId) {
      problems := problems + [OtherCluster];
    }
    if expectedNode.Some? && LowerId(claim.nodeId) != LowerId(expectedNode.value) {
      problems := problems + [OtherNode];
    }
    if claim.epoch < charter.epoch {
      problems := problems + [StaleEpoch];
    }
    assert problems == ClaimProblems(charter, claim, expectedNode);
    var checked := VerifyLoop(claim.nodeId, claim.proof, charter.membershipRoot);
    match checked
    case Err(ValueError) => return Err(ValueError);
    case Err(_) => return Ok(problems + [BadProofText]);
    case Ok(ok) => return Ok(if ok then problems else problems + [ProofFails]);
  }

  /** The charter carries the root of this member set. */
  predicate Carries(charter: Charter, ms: MemberSet) {
    && MembershipRoot(ms.Leaves()).Ok?
    && LowerId(charter.membershipRoot) == MembershipRoot(ms.Leaves()).value
  }

  /** Every leaf is a 32-byte id, and none is the output of the tree's own hash. */
  ghost predicate ProperIds(ids: seq<Id>) {
    ids != [] && forall id :: id in ids ==> id.Hex? && !IsPair(id.word)
  }

  predicate Listed(nodeId: Id, ids: seq<Id>) { exists id :: id in ids && LowerId(id) == LowerId(nodeId) }

  /** Every claim the authority issues at the charter's epoch or later verifies, for members
      and pads alike, whatever case the node id is written in. */
  lemma IssuedClaimVerifies(charter: Charter, ms: MemberSet, nodeId: Id, epoch: int)
    requires Carries(charter, ms) && Lower(charter.clusterId) == Lower(ms.clusterId) && epoch >= charter.epoch
    requires Listed(nodeId, ms.Leaves())
    ensures IssueClaim(ms, nodeId, epoch).Ok?
    ensures VerifyMember(charter, IssueClaim(ms, nodeId, epoch).value, Some(nodeId)) == Ok([])
  {
    hide Lower, MerkleRoot, MerkleProof, Climb, ClimbIds;
    var leaves := ms.Leaves();
    VerifyMemberClean(charter, IssueClaim(ms, nodeId, epoch).value, Some(nodeId));
    if AllHex(leaves) {
      TargetInWords(leaves, nodeId);
      var proof := MerkleProof(Words(leaves), nodeId.word);
      ProofComplete(Words(leaves), nodeId.word);
      ClimbIdsIsClimb(nodeId.word, Spell(proof));
      assert Words(Spell(proof)) == proof;
    } else {
      NothingToClimb(LowerId(nodeId));
    }
  }

  lemma NothingToClimb(h: Id)
    ensures ClimbIds(h, []) == Ok(h)
  {
  }

  /** Exactly the words inside the charter's tree can be claimed, each with some proof. */
  lemma AdmittedIffWithin(charter: Charter, ms: MemberSet, nodeId: Id)
    requires Carries(charter, ms) && ProperIds(ms.Leaves()) && nodeId.Hex?
    ensures (exists claim: Claim :: claim.nodeId == nodeId && VerifyMember(charter, claim, None) == Ok([])) <==>
            Within(nodeId.word, MerkleRoot(Words(ms.Leaves())))
  {
    var root := MerkleRoot(Words(ms.Leaves()));
    forall claim: Claim | claim.nodeId == nodeId && VerifyMember(charter, claim, None) == Ok([])
      ensures Within(nodeId.word, root)
    {
      VerifyMemberClean(charter, claim, None);
      ClimbIdsIsClimb(nodeId.word, claim.proof);
      ClimbStaysWithin(nodeId.word, nodeId.word, Words(claim.proof));
    }
    if Within(nodeId.word, root) {
      assert Flat(Words(ms.Leaves()));
      MerkleRootWellPaired(Words(ms.Leaves()));
      var proof := WithinClimbs(nodeId.word, root);
      ClimbIdsIsClimb(nodeId.word, Spell(proof));
      assert Words(Spell(proof)) == proof;
      var claim := Claim(charter.clusterId, nodeId, charter.epoch, Spell(proof));
      VerifyMemberClean(charter, claim, None);
    }
  }

  /** Soundness: a node id that is not a tree hash is admitted, by any proof at any epoch, only
      if it is a leaf of the set whose root the charter carries. */
  lemma OnlyLeavesVerify(charter: Charter, ms: MemberSet, claim: Claim, expectedNode: Option<Id>)
    requires Carries(charter, ms) && ProperIds(ms.Leaves())
    requires claim.nodeId.Hex? ==> !IsPair(claim.nodeId.word)
    requires VerifyMember(charter, claim, expectedNode) == Ok([])
    ensures Listed(claim.nodeId, ms.Leaves()) && claim.epoch >= charter.epoch
    ensures Lower(claim.clusterId) == Lower(charter.clusterId)
  {
    var leaves := ms.Leaves();
    VerifyMemberClean(charter, claim, expectedNode);
    assert claim.nodeId.Hex?;
    ClimbIdsIsClimb(claim.nodeId.word, claim.proof);
    ProofSound(claim.nodeId.word, Words(claim.proof), Words(leaves));
    var i :| 0 <= i < |Words(leaves)| && Words(leaves)[i] == claim.nodeId.word;
    assert leaves[i] in leaves && LowerId(leaves[i]) == LowerId(claim.nodeId);
  }

  /** Removal takes effect: once the charter carries a set without the node, no claim about it
      verifies, neither its old one nor any other. */
  lemma RemovedNodeIsRefused(charter: Charter, ms: MemberSet, claim: Claim, expectedNode: Option<Id>)
    requires Carries(charter, ms) && ProperIds(ms.Leaves())
    requires claim.nodeId.Hex? ==> !IsPair(claim.nodeId.word)
    requires !Listed(claim.nodeId, ms.Leaves())
    ensures VerifyMember(charter, claim, expectedNode) != Ok([])
  {
    if VerifyMember(charter, claim, expectedNode) == Ok([]) {
      OnlyLeavesVerify(charter, ms, claim, expectedNode);
    }
  }

  /** The condition on the claimed id is needed: the root itself, claimed with no proof, passes. */
  lemma RootClaimsItself(charter: Charter)
    requires !charter.membershipRoot.Malformed?
    ensures VerifyMember(charter, Claim(charter.clusterId, charter.membershipRoot, charter.epoch, []), None) == Ok([])
  {
    VerifyMemberClean(charter, Claim(charter.clusterId, charter.membershipRoot, charter.epoch, []), None);
  }

  /** The texts that make the hash raise: a node id that is not hex and is hashed with anything, or a
      hex one whose first proof element that is not hex has the right prefix and length. */
  ghost predicate NotHexReached(nodeId: Id, proof: seq<Id>) {
    match nodeId
    case Malformed(_) => false
    case NotHex(_, _) => proof != [] && !proof[0].Malformed?
    case Hex(_, _) => exists i :: FirstNotHex(proof, i)
  }

  ghost predicate FirstNotHex(proof: seq<Id>, i: int) {
    0 <= i < |proof| && proof[i].NotHex? && forall j :: 0 <= j < i ==> proof[j].Hex?
  }

  /** Exactly when a check raises instead of reporting. */
  lemma RaisesIffNotHexReached(charter: Charter, claim: Claim, expectedNode: Option<Id>)
    ensures VerifyMember(charter, claim, expectedNode).Err? <==> NotHexReached(claim.nodeId, claim.proof)
  {
    if claim.nodeId.Hex? { ClimbRaisesIff(LowerId(claim.nodeId), claim.proof); }
  }

  lemma {:induction false} ClimbRaisesIff(h: Id, proof: seq<Id>)
    requires h.Hex?
    ensures ClimbIds(h, proof) == Err(ValueError) <==> exists i :: FirstNotHex(proof, i)
    decreases |proof|
  {
    if proof != [] {
      if proof[0].NotHex? {
        assert FirstNotHex(proof, 0);
      } else if proof[0].Hex? {
        ClimbRaisesIff(Hex(Pair(h.word, proof[0].word), 0), proof[1..]);
        if i :| FirstNotHex(proof[1..], i) {
          assert forall j :: 1 <= j < |proof| ==> proof[j] == proof[1..][j - 1];
          assert FirstNotHex(proof, i + 1);
        }
        if i :| FirstNotHex(proof, i) {
          assert FirstNotHex(proof[1..], i - 1);
        }
      }
    }
  }

  /** A fresh member set is padded, so its root is never one of its members' ids. */
  lemma RootIsNoMember(clusterId: string, nodeIds: seq<Id>, entropy: seq<Term>, node: Id)
    requires |entropy| >= MIN_LEAVES && BuildMemberSet(clusterId, nodeIds, entropy).Ok?
    requires ProperIds(BuildMemberSet(clusterId, nodeIds, entropy).value.Leaves())
    requires node in nodeIds
    ensures MembershipRoot(BuildMemberSet(clusterId, nodeIds, entropy).value.Leaves()) != Ok(LowerId(node))
  {
    var leaves := BuildMemberSet(clusterId, nodeIds, entropy).value.Leaves();
    assert |leaves| >= 2;
    var j :| 0 <= j < |nodeIds| && nodeIds[j] == node;
    assert leaves[j] == LowerId(node);
    hide BuildMemberSet;
    RootIsNoLeaf(leaves, j);
  }

  lemma RootIsNoLeaf(leaves: seq<Id>, j: nat)
    requires |leaves| >= 2 && ProperIds(leaves) && j < |leaves|
    ensures MerkleRoot(Words(leaves)) != leaves[j].word
  {
    hide MerkleRoot;
    RootLeaves(Words(leaves));
    assert |multiset(Words(leaves))| >= 2;
    assert Leaves(leaves[j].word) == multiset{leaves[j].word};
  }

  // ---- proving membership to one audience, now ----

  datatype AccessRequest = AccessRequest(claim: Claim, audience: string, issuedAt: int, expiresAt: int,
                                         signature: Signature)

  function ProofTerms(proof: seq<Id>): (ts: seq<Term>)
    ensures |ts| == |proof| && forall i :: 0 <= i < |proof| ==> ts[i] == IdTerm(proof[i])
  {
    seq(|proof|, i requires 0 <= i < |proof| => IdTerm(proof[i]))
  }

  function ProofDigest(c: Claim): Term {
    Digest(Cons(Str(c.clusterId), Cons(IdTerm(c.nodeId), Cons(Num(c.epoch), Cons(TermList(ProofTerms(c.proof)), Nil)))))
  }

  function AccessMessage(r: AccessRequest, chainId: int): Term {
    Typed("XCPClusterAccess", "ClusterAccess", chainId,
          Cons(Str(r.claim.clusterId), Cons(IdTerm(r.claim.nodeId), Cons(Num(r.claim.epoch), Cons(ProofDigest(r.claim),
          Cons(Str(Lower(r.audience)), Cons(Num(r.issuedAt), Cons(Num(r.expiresAt), Nil))))))))
  }

  function VerifyAccessRequest(charter: Charter, r: AccessRequest, audience: string, now: int, maxTtl: int,
                               chainId: int): Result<seq<Problem>, Error>
  {
    match VerifyMember(charter, r.claim, None)
    case Err(e) => Err(e)
    case Ok(member) => Ok(
      (if Lower(r.audience) != Lower(Strip(audience)) then [OtherAudience] else [])
      + (if now > r.expiresAt then [Expired] else [])
      + (if r.issuedAt > now + 5 then [FromTheFuture] else [])
      + (if r.expiresAt - r.issuedAt > maxTtl then [TooLong] else [])
      + member
      + (if r.signature.Unsigned? then [NoSignature] else
         match Recover(AccessMessage(r, chainId), r.signature)
         case None => [BadSignature]
         case Some(a) => if Hex(NodeIdOf(a), 0) != LowerId(r.claim.nodeId) then [NotTheNode] else []))
  }

  /** An access request that verifies was signed for this audience and this moment by the key of
      a node that is a leaf of the charter's set. No condition on the claimed id is needed: the
      id is the digest of an address, and that is never a tree hash. */
  lemma AccessMeansMember(charter: Charter, ms: MemberSet, r: AccessRequest, audience: string, now: int, maxTtl: int,
                          chainId: int)
    requires Carries(charter, ms) && ProperIds(ms.Leaves())
    requires VerifyAccessRequest(charter, r, audience, now, maxTtl, chainId) == Ok([])
    ensures Listed(r.claim.nodeId, ms.Leaves())
    ensures Lower(r.audience) == Lower(Strip(audience))
    ensures now <= r.expiresAt && now >= r.issuedAt - 5 && now <= r.issuedAt + maxTtl
    ensures exists a :: && Recover(AccessMessage(r, chainId), r.signature) == Some(a)
                        && LowerId(r.claim.nodeId) == Hex(NodeIdOf(a), 0)
                        && (a.Of? ==> r.signature == Sign(a.key, AccessMessage(r, chainId)))
  {
    var a := Recover(AccessMessage(r, chainId), r.signature).value;
    assert LowerId(r.claim.nodeId) == Hex(NodeIdOf(a), 0);
    OnlyLeavesVerify(charter, ms, r.claim, None);
  }

  /** Real node ids are digests of the addresses of keys; pads are random words. */
  ghost predicate HeldIds(ms: MemberSet) {
    && (forall id :: id in ms.nodeIds ==> exists k: nat :: id == Hex(NodeIdOf(Of(k)), 0))
    && (forall id :: id in ms.pads ==> id.Hex? && id.word.Raw?)
  }

  /** What verifies was signed, every field of it, with the key that holds the claimed node id. */
  lemma VerifiedRequestSigned(charter: Charter, ms: MemberSet, r: AccessRequest, audience: string, now: int,
                              maxTtl: int, chainId: int) returns (key: nat)
    requires Carries(charter, ms) && ProperIds(ms.Leaves()) && HeldIds(ms)
    requires VerifyAccessRequest(charter, r, audience, now, maxTtl, chainId) == Ok([])
    ensures r.signature == Sign(key, AccessMessage(r, chainId))
  {
    hide VerifyMember, Lower, Strip, Carries, ProperIds, AccessMessage;
    AccessMeansMember(charter, ms, r, audience, now, maxTtl, chainId);
    var a := Recover(AccessMessage(r, chainId), r.signature).value;
    assert LowerId(r.claim.nodeId) == Hex(NodeIdOf(a), 0);
    var id :| id in ms.Leaves() && LowerId(id) == LowerId(r.claim.nodeId);
    assert id in ms.nodeIds || id in ms.pads;
    assert NodeIdOf(a).Keccak?;
    key :| id == Hex(NodeIdOf(Of(key)), 0);
    assert AddressText(a) == AddressText(Of(key));
  }

  /** One signature covers one claim: swapping the node, the proof, the audience or the times in a
      request that verifies leaves a request that does not. */
  lemma AccessSignatureCoversClaim(charter: Charter, ms: MemberSet, r: AccessRequest, s: AccessRequest,
                                   audience: string, now: int, maxTtl: int, chainId: int)
    requires Carries(charter, ms) && ProperIds(ms.Leaves()) && HeldIds(ms)
    requires VerifyAccessRequest(charter, r, audience, now, maxTtl, chainId) == Ok([])
    requires VerifyAccessRequest(charter, s, audience, now, maxTtl, chainId) == Ok([])
    requires r.signature == s.signature
    ensures r.claim == s.claim && r.issuedAt == s.issuedAt && r.expiresAt == s.expiresAt
    ensures Lower(r.audience) == Lower(s.audience)
  {
    hide VerifyAccessRequest, Carries, ProperIds, HeldIds, AccessMessage;
    var k := VerifiedRequestSigned(charter, ms, r, audience, now, maxTtl, chainId);
    var l := VerifiedRequestSigned(charter, ms, s, audience, now, maxTtl, chainId);
    MessagePinsRequest(r, s, chainId);
  }

  lemma MessagePinsRequest(r: AccessRequest, s: AccessRequest, chainId: int)
    requires AccessMessage(r, chainId) == AccessMessage(s, chainId)
    ensures r.claim == s.claim && r.issuedAt == s.issuedAt && r.expiresAt == s.expiresAt
    ensures Lower(r.audience) == Lower(s.audience)
  {
    hide Lower, ProofTerms;
    assert IdTerm(r.claim.nodeId) == IdTerm(s.claim.nodeId);
    assert ProofDigest(r.claim) == ProofDigest(s.claim);
    TermListInjective(ProofTerms(r.claim.proof), ProofTerms(s.claim.proof));
    assert forall i :: 0 <= i < |r.claim.proof| ==> ProofTerms(r.claim.proof)[i] == ProofTerms(s.claim.proof)[i];
    assert r.claim.proof == s.claim.proof;
  }
}
