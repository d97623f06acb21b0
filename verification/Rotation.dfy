/** federation/identity.py: a long-lived key that signs which certificate it presents now, and
    the renewals that replace the certificate without replacing the identity. */
module Rotation {
  import opened Common
  import opened Hashing
  import opened Signing
  import opened Text

  const CHAIN_ID := 8453

  /** A node id as written: the digest, and how its hex is cased (0 is lower case). */
  datatype NodeId = NodeId(word: Term, spelling: nat)

  function LowerId(id: NodeId): NodeId { NodeId(id.word, 0) }

  datatype NodeIdentity = NodeIdentity(address: Address, privateKey: Option<nat>) {
    function Id(): NodeId { NodeId(NodeIdOf(address), 0) }
  }

  function FromKey(key: nat): NodeIdentity { NodeIdentity(Of(key), Some(key)) }

  datatype CertBinding = CertBinding(nodeId: NodeId, certFootprint: string, sequence: int, notBefore: int,
                                     notAfter: int, domain: string, signer: Option<Address>, signature: Signature)

  datatype BindingSet = BindingSet(current: CertBinding, previous: Option<CertBinding>)

  function Message(b: CertBinding): Term {
    Typed("XCPNodeIdentity", "CertBinding", CHAIN_ID,
          Cons(Cons(b.nodeId.word, Num(b.nodeId.spelling)), Cons(Str(b.certFootprint), Cons(Num(b.sequence),
          Cons(Num(b.notBefore), Cons(Num(b.notAfter), Str(b.domain)))))))
  }

  predicate Active(b: CertBinding, now: int, grace: int) { b.notBefore <= now <= b.notAfter + grace }

  function SignBinding(identity: NodeIdentity, footprint: string, domain: string, sequence: int, ttl: int, now: int)
    : Result<CertBinding, string>
  {
    match identity.privateKey
    case None => Err("signing needs the node's private key")
    case Some(key) =>
      var b := CertBinding(identity.Id(), footprint, sequence, now, now + ttl, domain, Some(identity.address),
                           Unsigned);
      Ok(b.(signature := Sign(key, Message(b))))
  }

  datatype Problem = OtherIdentity | OtherDomain | OtherCertificate | NotActive | StaleSequence | NoSignature
                   | NoRecovery | OtherSigner | SignerNotIdentity

  function SignatureProblems(b: CertBinding): seq<Problem> {
    if b.signature.Unsigned? then [NoSignature] else
    match Recover(Message(b), b.signature)
    case None => [NoRecovery]
    case Some(a) =>
      (if b.signer.Some? && a != b.signer.value then [OtherSigner] else [])
      + (if NodeId(NodeIdOf(a), 0) != b.nodeId then [SignerNotIdentity] else [])
  }

  predicate SameDomain(b: CertBinding, expected: string) {
    expected == "" || b.domain == "" || Lower(b.domain) == Lower(expected)
  }

  /** Expectations left empty are not checked. */
  function MatchProblems(b: CertBinding, expectedId: Option<NodeId>, expectedDomain: string, tlsFootprint: string)
    : seq<Problem>
  {
    (if expectedId.Some? && LowerId(b.nodeId) != LowerId(expectedId.value) then [OtherIdentity] else [])
    + (if !SameDomain(b, expectedDomain) then [OtherDomain] else [])
    + (if tlsFootprint != "" && Lower(b.certFootprint) != Lower(tlsFootprint) then [OtherCertificate] else [])
  }

  function FreshnessProblems(b: CertBinding, now: int, grace: int, minSequence: int): seq<Problem> {
    (if !Active(b, now, grace) then [NotActive] else [])
    + (if b.sequence < minSequence then [StaleSequence] else [])
  }

  function VerifyBinding(b: CertBinding, expectedId: Option<NodeId>, expectedDomain: string, tlsFootprint: string,
                         now: int, grace: int, minSequence: int): seq<Problem>
  {
    MatchProblems(b, expectedId, expectedDomain, tlsFootprint) + FreshnessProblems(b, now, grace, minSequence)
    + SignatureProblems(b)
  }

  method VerifyBindingSteps(b: CertBinding, expectedId: Option<NodeId>, expectedDomain: string, tlsFootprint: string,
                            now: int, grace: int, minSequence: int) returns (problems: seq<Problem>)
    ensures problems == VerifyBinding(b, expectedId, expectedDomain, tlsFootprint, now, grace, minSequence)
  {
    problems := CheckMatch(b, expectedId, expectedDomain, tlsFootprint);
    problems := CheckFreshness(b, now, grace, minSequence, problems);
    problems := problems + SignatureProblems(b);
  }

  method CheckMatch(b: CertBinding, expectedId: Option<NodeId>, expectedDomain: string, tlsFootprint: string)
    returns (problems: seq<Problem>)
    ensures problems == MatchProblems(b, expectedId, expectedDomain, tlsFootprint)
  {
    problems := [];
    if expectedId.Some? && LowerId(b.nodeId) != LowerId(expectedId.value) { problems := problems + [OtherIdentity]; }
    if !SameDomain(b, expectedDomain) { problems := problems + [OtherDomain]; }
    if tlsFootprint != "" && Lower(b.certFootprint) != Lower(tlsFootprint) {
      problems := problems + [OtherCertificate];
    }
  }

  method CheckFreshness(b: CertBinding, now: int, grace: int, minSequence: int, soFar: seq<Problem>)
    returns (problems: seq<Problem>)
    ensures problems == soFar + FreshnessProblems(b, now, grace, minSequence)
  {
    problems := soFar;
    if !Active(b, now, grace) { problems := problems + [NotActive]; }
    if b.sequence < minSequence { problems := problems + [StaleSequence]; }
  }

  lemma BindingVerifies(b: CertBinding, expectedId: Option<NodeId>, expectedDomain: string, tlsFootprint: string,
                        now: int, grace: int, minSequence: int)
    ensures VerifyBinding(b, expectedId, expectedDomain, tlsFootprint, now, grace, minSequence) == [] <==>
            && (expectedId.Some? ==> LowerId(b.nodeId) == LowerId(expectedId.value))
            && SameDomain(b, expectedDomain)
            && (tlsFootprint == "" || Lower(b.certFootprint) == Lower(tlsFootprint))
            && Active(b, now, grace) && b.sequence >= minSequence && SignatureProblems(b) == []
  {
    var whole := VerifyBinding(b, expectedId, expectedDomain, tlsFootprint, now, grace, minSequence);
    assert whole == [] <==> |whole| == 0;
    var m := MatchProblems(b, expectedId, expectedDomain, tlsFootprint);
    var f := FreshnessProblems(b, now, grace, minSequence);
    assert m == [] <==> |m| == 0;
    assert f == [] <==> |f| == 0;
  }

  function Rotate(identity: NodeIdentity, footprint: string, domain: string, existing: Option<BindingSet>, ttl: int,
                  now: int): Result<BindingSet, string>
  {
    var seqNo := if existing.Some? then existing.value.current.sequence + 1 else 1;
    match SignBinding(identity, footprint, domain, seqNo, ttl, now)
    case Err(e) => Err(e)
    case Ok(b) => Ok(BindingSet(b, if existing.Some? then Some(existing.value.current) else None))
  }

  datatype Which = Current | Previous | Neither

  function Accept(bs: BindingSet, tlsFootprint: string, expectedId: Option<NodeId>, expectedDomain: string,
                  knownSequence: int, now: int, grace: int): (bool, Which, seq<Problem>)
  {
    var cur := VerifyBinding(bs.current, expectedId, expectedDomain, tlsFootprint, now, 0, knownSequence);
    if cur == [] then (true, Current, [])
    else if bs.previous.Some?
         && VerifyBinding(bs.previous.value, expectedId, expectedDomain, tlsFootprint, now, grace, 0) == []
    then (true, Previous, [])
    else (false, Neither, cur)
  }

  // ---- what an accepted certificate proves ----

  lemma SignedByIdentity(b: CertBinding, key: nat)
    requires SignatureProblems(b) == [] && LowerId(b.nodeId) == FromKey(key).Id()
    ensures b.signature == Sign(key, Message(b))
  {
    assert |SignatureProblems(b)| == 0;
    var a := Recover(Message(b), b.signature).value;
    assert NodeIdOf(a) == NodeIdOf(Of(key));
    assert AddressText(a) == AddressText(Of(key));
  }

  /** A peer that expects an identity accepts a certificate only if that identity's key signed a
      binding of exactly that certificate, active now or within the grace. */
  lemma AcceptedWasSigned(bs: BindingSet, tlsFootprint: string, key: nat, expectedDomain: string, knownSequence: int,
                          now: int, grace: int)
    requires tlsFootprint != "" && grace >= 0
    requires Accept(bs, tlsFootprint, Some(FromKey(key).Id()), expectedDomain, knownSequence, now, grace).0
    ensures exists b :: && (b == bs.current || bs.previous == Some(b))
                        && b.signature == Sign(key, Message(b)) && Lower(b.certFootprint) == Lower(tlsFootprint)
                        && Active(b, now, grace)
  {
    var id := Some(FromKey(key).Id());
    BindingVerifies(bs.current, id, expectedDomain, tlsFootprint, now, 0, knownSequence);
    if VerifyBinding(bs.current, id, expectedDomain, tlsFootprint, now, 0, knownSequence) == [] {
      SignedByIdentity(bs.current, key);
    } else {
      BindingVerifies(bs.previous.value, id, expectedDomain, tlsFootprint, now, grace, 0);
      SignedByIdentity(bs.previous.value, key);
    }
  }

  // ---- any number of renewals by one key ----

  datatype Renewal = Renewal(footprint: string, domain: string, ttl: int, now: int)

  function Publish(key: nat, rs: seq<Renewal>): Option<BindingSet>
    decreases |rs|
  {
    if rs == [] then None else
    var r := rs[|rs| - 1];
    match Rotate(FromKey(key), r.footprint, r.domain, Publish(key, rs[..|rs| - 1]), r.ttl, r.now)
    case Ok(bs) => Some(bs)
    case Err(_) => None
  }

  /** The binding that renewal number `k` (from 1) is signed into. */
  function Bound(key: nat, rs: seq<Renewal>, k: nat): CertBinding
    requires 1 <= k <= |rs|
  {
    var r := rs[k - 1];
    SignBinding(FromKey(key), r.footprint, r.domain, k, r.ttl, r.now).value
  }

  /** After n renewals the published set holds renewals n and n - 1, numbered so, under one node id. */
  lemma {:induction false} RenewalsKeepOrder(key: nat, rs: seq<Renewal>)
    requires rs != []
    ensures Publish(key, rs).Some?
    ensures Publish(key, rs).value.current == Bound(key, rs, |rs|)
    ensures Publish(key, rs).value.previous == if |rs| == 1 then None else Some(Bound(key, rs, |rs| - 1))
    ensures Publish(key, rs).value.current.sequence == |rs|
    ensures Publish(key, rs).value.current.nodeId == FromKey(key).Id()
    decreases |rs|
  {
    var init := rs[..|rs| - 1];
    if init != [] {
      RenewalsKeepOrder(key, init);
      assert Bound(key, init, |init|) == Bound(key, rs, |rs| - 1);
    }
  }

  /** Renewal `k` answers for the presented certificate at this moment. */
  predicate Answers(rs: seq<Renewal>, k: nat, tlsFootprint: string, expectedDomain: string, now: int, grace: int)
    requires 1 <= k <= |rs|
  {
    var r := rs[k - 1];
    && Lower(r.footprint) == Lower(tlsFootprint) && r.now <= now <= r.now + r.ttl + grace
    && (expectedDomain == "" || r.domain == "" || Lower(r.domain) == Lower(expectedDomain))
  }

  lemma BoundVerifiesIff(key: nat, rs: seq<Renewal>, k: nat, tlsFootprint: string, expectedDomain: string, now: int,
                         grace: int, minSequence: int)
    requires 1 <= k <= |rs| && tlsFootprint != ""
    ensures var b, id := Bound(key, rs, k), FromKey(key).Id();
            VerifyBinding(b, Some(id), expectedDomain, tlsFootprint, now, grace, minSequence) == [] <==>
            Answers(rs, k, tlsFootprint, expectedDomain, now, grace) && k >= minSequence
  {
    var b := Bound(key, rs, k);
    assert Message(b.(signature := Unsigned)) == Message(b);
    assert SignatureProblems(b) == [];
    BindingVerifies(b, Some(FromKey(key).Id()), expectedDomain, tlsFootprint, now, grace, minSequence);
  }

  /** Exactly what a peer accepts after n renewals: the n-th certificate while it is valid, if the
      peer has seen no higher sequence; else the one before it, until the grace has passed. */
  lemma AcceptIff(key: nat, rs: seq<Renewal>, tlsFootprint: string, expectedDomain: string, known: int, now: int,
                  grace: int)
    requires rs != [] && tlsFootprint != ""
    ensures var n := |rs|;
            var cur := Answers(rs, n, tlsFootprint, expectedDomain, now, 0) && n >= known;
            var prev := n >= 2 && Answers(rs, n - 1, tlsFootprint, expectedDomain, now, grace);
            Accept(Publish(key, rs).value, tlsFootprint, Some(FromKey(key).Id()), expectedDomain, known, now, grace)
              .1 == if cur then Current else if prev then Previous else Neither
  {
    RenewalsKeepOrder(key, rs);
    BoundVerifiesIff(key, rs, |rs|, tlsFootprint, expectedDomain, now, 0, known);
    if |rs| >= 2 {
      BoundVerifiesIff(key, rs, |rs| - 1, tlsFootprint, expectedDomain, now, grace, 0);
    }
  }

  ghost predicate DistinctFootprints(rs: seq<Renewal>) {
    forall i, j :: 0 <= i < j < |rs| ==> Lower(rs[i].footprint) != Lower(rs[j].footprint)
  }

  /** No certificate older than the last two is accepted, at any time. */
  lemma OlderCertificatesRefused(key: nat, rs: seq<Renewal>, k: nat, expectedDomain: string, known: int, now: int,
                                 grace: int)
    requires DistinctFootprints(rs) && k < |rs| - 2 && rs[k].footprint != ""
    ensures var id := FromKey(key).Id();
            !Accept(Publish(key, rs).value, rs[k].footprint, Some(id), expectedDomain, known, now, grace).0
  {
    AcceptIff(key, rs, rs[k].footprint, expectedDomain, known, now, grace);
  }

  /** The limit of the sequence check: it guards only the current binding. Replaying the set
      published at renewal m to a peer that has seen a later one is accepted exactly when the
      certificate presented is number m - 1 and its grace has not passed. */
  lemma ReplayedSetWindow(key: nat, rs: seq<Renewal>, tlsFootprint: string, expectedDomain: string, known: int,
                          now: int, grace: int)
    requires rs != [] && tlsFootprint != "" && known > |rs|
    ensures var id := FromKey(key).Id();
            Accept(Publish(key, rs).value, tlsFootprint, Some(id), expectedDomain, known, now, grace).0 <==>
            |rs| >= 2 && Answers(rs, |rs| - 1, tlsFootprint, expectedDomain, now, grace)
  {
    AcceptIff(key, rs, tlsFootprint, expectedDomain, known, now, grace);
  }
}
