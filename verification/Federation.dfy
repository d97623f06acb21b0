/** federation/node.py: one node's view of the web. Peers are verified directly or introduced
    by peers; trust decays with each introduction and stops at a hop cap. */
module Federation {
  import opened Common
  import opened Reals
  import opened Text

  datatype Trust = UNKNOWN | VERIFIED | PEERED | ATTESTED

  function Rank(t: Trust): nat { match t case UNKNOWN => 0 case VERIFIED => 1 case PEERED => 2 case ATTESTED => 3 }

  datatype Peer = Peer(domain: string, nodeId: string, gatewayUrl: string, trust: Trust, hops: int, weight: real,
                       introducedBy: string, lastSeen: int, revoked: bool, sequence: int, site: string,
                       serves: seq<string>)

  datatype Attestation = Attestation(subjectDomain: string, subjectNodeId: string, issuerDomain: string,
                                     issuerNodeId: string, trust: Trust, issuedAt: int, expiresAt: int)

  datatype Config = Config(selfDomain: string, decay: real, maxHops: int, minWeight: real)

  datatype View = View(cfg: Config, peers: map<string, Peer>, revocations: set<string>)

  function NewView(cfg: Config): View { View(cfg, map[], {}) }

  // ---- the operations ----

  predicate Replayed(v: View, domain: string, sequence: int) {
    Lower(domain) in v.peers && sequence != 0 && sequence < v.peers[Lower(domain)].sequence
  }

  function DirectPeer(v: View, domain: string, nodeId: string, gatewayUrl: string, mutual: bool, now: int,
                      sequence: int, site: string, serves: seq<string>): Peer
  {
    var d := Lower(domain);
    var known := if d in v.peers then v.peers[d].sequence else 0;
    Peer(d, nodeId, gatewayUrl, if mutual then PEERED else VERIFIED, 1, 1.0, "", now, false,
         if sequence > known then sequence else known, site, serves)
  }

  /** A replayed binding raises and changes nothing. */
  function AddVerifiedPeer(v: View, domain: string, nodeId: string, gatewayUrl: string, mutual: bool, now: int,
                           sequence: int, site: string, serves: seq<string>): View
  {
    if Replayed(v, domain, sequence) then v else
    var p := DirectPeer(v, domain, nodeId, gatewayUrl, mutual, now, sequence, site, serves);
    v.(peers := v.peers[Lower(domain) := p])
  }

  predicate IsRotation(v: View, domain: string, nodeId: string, sequence: int) {
    var d := Lower(domain);
    d in v.peers && Lower(v.peers[d].nodeId) == Lower(nodeId) && sequence > v.peers[d].sequence
  }

  function NoteRotation(v: View, domain: string, nodeId: string, sequence: int, now: int): View {
    if !IsRotation(v, domain, nodeId, sequence) then v else
    var d := Lower(domain);
    v.(peers := v.peers[d := v.peers[d].(sequence := sequence, lastSeen := now)])
  }

  /** The peer an attestation would put in the table, if nothing refuses it. */
  function Introduced(v: View, att: Attestation, now: int): Option<Peer> {
    var issuer := Lower(att.issuerDomain);
    if now > att.expiresAt || issuer !in v.peers || v.peers[issuer].revoked then None
    else if att.subjectNodeId in v.revocations || Lower(att.subjectDomain) == Lower(v.cfg.selfDomain) then None
    else if v.peers[issuer].hops + 1 > v.cfg.maxHops then None
    else if v.peers[issuer].weight * v.cfg.decay < v.cfg.minWeight then None
    else Some(Peer(Lower(att.subjectDomain), att.subjectNodeId, "", att.trust, v.peers[issuer].hops + 1,
                   v.peers[issuer].weight * v.cfg.decay, att.issuerDomain, now, false, 0, "", []))
  }

  predicate Preferred(existing: Peer, p: Peer) { existing.hops <= p.hops && existing.weight >= p.weight }

  function IngestAttestation(v: View, att: Attestation, now: int): View {
    match Introduced(v, att, now)
    case None => v
    case Some(p) =>
      if p.domain in v.peers && Preferred(v.peers[p.domain], p) then v
      else v.(peers := v.peers[p.domain := p])
  }

  function RevokePeers(peers: map<string, Peer>, nodeId: string): map<string, Peer> {
    map d | d in peers :: if peers[d].nodeId == nodeId then peers[d].(revoked := true) else peers[d]
  }

  function Revoke(v: View, nodeId: string): View {
    v.(revocations := v.revocations + {nodeId}, peers := RevokePeers(v.peers, nodeId))
  }

  predicate MayRevoke(v: View, fromDomain: string) {
    var d := Lower(fromDomain);
    d in v.peers && !v.peers[d].revoked && Rank(v.peers[d].trust) >= Rank(VERIFIED)
  }

  /** Where a revocation is passed on to: the gateways of the peers still trusted. */
  function GossipTargets(v: View): set<string> {
    set d | d in v.peers && !v.peers[d].revoked && Rank(v.peers[d].trust) >= Rank(VERIFIED) ::
      if v.peers[d].gatewayUrl != "" then v.peers[d].gatewayUrl else v.peers[d].domain
  }

  function IngestRevocation(v: View, nodeId: string, fromDomain: string): View {
    if MayRevoke(v, fromDomain) then Revoke(v, nodeId) else v
  }

  function TrustOf(v: View, domain: string): (Trust, real) {
    var d := Lower(domain);
    if d !in v.peers || v.peers[d].revoked || v.peers[d].nodeId in v.revocations then (UNKNOWN, 0.0)
    else (v.peers[d].trust, v.peers[d].weight)
  }

  predicate IsReachable(v: View, d: string, minTrust: Trust) {
    && d in v.peers && !v.peers[d].revoked
    && Rank(v.peers[d].trust) >= Rank(minTrust) && v.peers[d].weight >= v.cfg.minWeight
  }

  datatype Op =
    | Add(domain: string, nodeId: string, gatewayUrl: string, mutual: bool, now: int, sequence: int, site: string,
          serves: seq<string>)
    | Rotation(domain: string, nodeId: string, sequence: int, now: int)
    | Attest(att: Attestation, now: int)
    | RevokeOp(nodeId: string)
    | GossipRevocation(nodeId: string, fromDomain: string)

  function Step(v: View, op: Op): View {
    match op
    case Add(d, id, url, mutual, now, s, site, serves) => AddVerifiedPeer(v, d, id, url, mutual, now, s, site, serves)
    case Rotation(d, id, s, now) => NoteRotation(v, d, id, s, now)
    case Attest(att, now) => IngestAttestation(v, att, now)
    case RevokeOp(id) => Revoke(v, id)
    case GossipRevocation(id, from) => IngestRevocation(v, id, from)
  }

  function Run(v: View, ops: seq<Op>): View
    decreases |ops|
  {
    if ops == [] then v else Step(Run(v, ops[..|ops| - 1]), ops[|ops| - 1])
  }

  // ---- decay: weight is a power of the hop count, in every reachable table ----

  ghost predicate Weighed(v: View) {
    forall d :: d in v.peers ==>
      && v.peers[d].domain == d && v.peers[d].hops >= 1
      && (v.peers[d].hops > 1 ==> v.peers[d].hops <= v.cfg.maxHops && v.peers[d].weight >= v.cfg.minWeight)
      && v.peers[d].weight == Power(v.cfg.decay, v.peers[d].hops - 1)
  }

  lemma AttestationKeepsWeighed(v: View, att: Attestation, now: int)
    requires Weighed(v)
    ensures Weighed(IngestAttestation(v, att, now))
  {
    hide Introduced, Preferred, Power, Lower;
    if Introduced(v, att, now).Some? { IntroducedWeighs(v, att, now); }
  }

  lemma IntroducedWeighs(v: View, att: Attestation, now: int)
    requires Weighed(v) && Introduced(v, att, now).Some?
    ensures var p := Introduced(v, att, now).value;
            && p.domain == Lower(att.subjectDomain) && 2 <= p.hops <= v.cfg.maxHops && p.weight >= v.cfg.minWeight
            && p.weight == Power(v.cfg.decay, p.hops - 1)
  {
    hide Lower;
    assert Lower(att.issuerDomain) in v.peers;
  }

  lemma StepKeepsWeighed(v: View, op: Op)
    requires Weighed(v)
    ensures Weighed(Step(v, op)) && Step(v, op).cfg == v.cfg
  {
    hide Lower, Introduced, Replayed;
    if op.Attest? { AttestationKeepsWeighed(v, op.att, op.now); }
  }

  /** Every peer's weight is decay^(hops-1), its hops are at least one and, unless it was verified
      directly, within the cap. For any decay, cap and floor. */
  lemma {:induction false} RunWeighs(cfg: Config, ops: seq<Op>)
    ensures Weighed(Run(NewView(cfg), ops)) && Run(NewView(cfg), ops).cfg == cfg
    decreases |ops|
  {
    if ops != [] {
      RunWeighs(cfg, ops[..|ops| - 1]);
      StepKeepsWeighed(Run(NewView(cfg), ops[..|ops| - 1]), ops[|ops| - 1]);
    }
  }

  lemma {:induction false} PowerFalls(d: real, m: nat, n: nat)
    requires 0.0 <= d <= 1.0 && m <= n
    ensures 0.0 <= Power(d, n) <= Power(d, m) <= 1.0
    decreases n
  {
    if n > 0 {
      PowerFalls(d, if m < n then m else n - 1, n - 1);
    }
  }

  // ---- hops never increase, exactly under these settings ----

  predicate Introduces(cfg: Config) { cfg.maxHops >= 2 && cfg.decay >= cfg.minWeight }

  /** No introduction at all; or a decay that decays; or an alternating one cut off at two hops. */
  predicate Stable(cfg: Config) {
    !Introduces(cfg) || 0.0 <= cfg.decay <= 1.0 || (cfg.decay < 0.0 && cfg.maxHops < 3)
  }

  ghost predicate Closer(before: View, after: View) {
    forall d :: d in before.peers ==> d in after.peers && after.peers[d].hops <= before.peers[d].hops
  }

  ghost predicate DirectIfIsolated(v: View) {
    !Introduces(v.cfg) ==> forall d :: d in v.peers ==> v.peers[d].hops == 1
  }

  lemma StepKeepsDirect(v: View, op: Op)
    requires Weighed(v) && DirectIfIsolated(v)
    ensures DirectIfIsolated(Step(v, op))
  {
    if op.Attest? && Introduced(v, op.att, op.now).Some? {
      assert Power(v.cfg.decay, 0) == 1.0;
    }
  }

  lemma {:induction false} RunDirect(cfg: Config, ops: seq<Op>)
    ensures DirectIfIsolated(Run(NewView(cfg), ops))
    decreases |ops|
  {
    RunWeighs(cfg, ops);
    if ops != [] {
      var init := ops[..|ops| - 1];
      RunDirect(cfg, init);
      RunWeighs(cfg, init);
      StepKeepsDirect(Run(NewView(cfg), init), ops[|ops| - 1]);
    }
  }

  lemma IntroductionIsFarther(v: View, att: Attestation, now: int, existing: Peer)
    requires Weighed(v) && DirectIfIsolated(v) && Stable(v.cfg)
    requires Introduced(v, att, now).Some? && existing.domain in v.peers && v.peers[existing.domain] == existing
    requires existing.hops <= Introduced(v, att, now).value.hops
    ensures Preferred(existing, Introduced(v, att, now).value)
  {
    var p := Introduced(v, att, now).value;
    var issuer := v.peers[Lower(att.issuerDomain)];
    assert p.weight == Power(v.cfg.decay, p.hops - 1);
    if 0.0 <= v.cfg.decay <= 1.0 {
      PowerFalls(v.cfg.decay, existing.hops - 1, p.hops - 1);
    } else if existing.hops == 1 {
      assert issuer.hops == 1;
      assert Power(v.cfg.decay, 0) == 1.0 && Power(v.cfg.decay, 1) == v.cfg.decay;
    }
  }

  lemma StepCloser(v: View, op: Op)
    requires Weighed(v) && DirectIfIsolated(v) && Stable(v.cfg)
    ensures Closer(v, Step(v, op))
  {
    if op.Attest? && Introduced(v, op.att, op.now).Some? {
      var p := Introduced(v, op.att, op.now).value;
      if p.domain in v.peers && v.peers[p.domain].hops <= p.hops {
        IntroductionIsFarther(v, op.att, op.now, v.peers[p.domain]);
      }
    }
  }

  /** A call that lengthens some peer's hops. */
  ghost predicate Lengthens(cfg: Config, ops: seq<Op>, op: Op) {
    !Closer(Run(NewView(cfg), ops), Step(Run(NewView(cfg), ops), op))
  }

  function Vouch(subject: string, issuer: string): Op {
    Attest(Attestation(subject, "id", issuer, "id", VERIFIED, 1, 1), 1)
  }

  function Direct(domain: string): Op { Add(domain, "id", "", false, 1, 0, "", []) }

  lemma RunMore(v: View, ops: seq<Op>, op: Op)
    ensures Run(v, ops + [op]) == Step(Run(v, ops), op)
  {
    assert (ops + [op])[..|ops|] == ops;
  }

  lemma Named(cfg: Config, suffix: string)
    requires Lower(suffix) == suffix && suffix != ""
    ensures Lower(Lower(cfg.selfDomain) + suffix) == Lower(cfg.selfDomain) + suffix != Lower(cfg.selfDomain)
  {
    LowerTwice(cfg.selfDomain);
    assert |Lower(cfg.selfDomain) + suffix| > |Lower(cfg.selfDomain)|;
  }

  /** Names for domains other than this node's. */
  ghost predicate Distinct4(self: string, a: string, b: string, c: string, e: string) {
    && Lower(a) == a && Lower(b) == b && Lower(c) == c && Lower(e) == e
    && a !in {b, c, e, self} && b !in {c, e, self} && c !in {e, self} && e != self
  }

  lemma FourNames(cfg: Config) returns (a: string, b: string, c: string, e: string)
    ensures Distinct4(Lower(cfg.selfDomain), a, b, c, e)
  {
    var self := Lower(cfg.selfDomain);
    a, b, c, e := self + "a", self + "b", self + "c", self + "e";
    Named(cfg, "a"); Named(cfg, "b"); Named(cfg, "c"); Named(cfg, "e");
    assert a[|self|] == 'a' && b[|self|] == 'b' && c[|self|] == 'c' && e[|self|] == 'e';
  }

  /** A peer with these hops and this weight, not revoked. */
  ghost predicate At(v: View, d: string, hops: int, weight: real) {
    d in v.peers && v.peers[d].hops == hops && v.peers[d].weight == weight && !v.peers[d].revoked
  }

  ghost predicate OnlyChanged(v: View, w: View, d: string) {
    && w.cfg == v.cfg && w.revocations == v.revocations
    && forall x :: x != d ==> (x in w.peers <==> x in v.peers) && (x in v.peers ==> w.peers[x] == v.peers[x])
  }

  lemma DirectAdds(v: View, d: string) returns (w: View)
    requires Lower(d) == d
    ensures w == Step(v, Direct(d)) && At(w, d, 1, 1.0) && OnlyChanged(v, w, d)
  {
    hide Lower;
    w := Step(v, Direct(d));
  }

  lemma VouchAdds(v: View, d: string, issuer: string, hops: int, weight: real) returns (w: View)
    requires Lower(d) == d && Lower(issuer) == issuer && d != Lower(v.cfg.selfDomain) && v.revocations == {}
    requires At(v, issuer, hops, weight) && hops + 1 <= v.cfg.maxHops && weight * v.cfg.decay >= v.cfg.minWeight
    requires d !in v.peers || v.peers[d].hops > hops + 1 || v.peers[d].weight < weight * v.cfg.decay
    ensures w == Step(v, Vouch(d, issuer)) && At(w, d, hops + 1, weight * v.cfg.decay) && OnlyChanged(v, w, d)
    ensures w.peers[d].introducedBy == issuer
  {
    hide Lower;
    w := Step(v, Vouch(d, issuer));
  }

  lemma RunTwo(v: View, a: Op, b: Op)
    ensures Run(v, [a, b]) == Step(Step(v, a), b)
  {
    hide Step;
    RunMore(v, [], a);
    RunMore(v, [a], b);
    assert [] + [a] == [a] && [a] + [b] == [a, b];
  }

  lemma RunThree(v: View, a: Op, b: Op, c: Op)
    ensures Run(v, [a, b, c]) == Step(Step(Step(v, a), b), c)
  {
    hide Step, Run;
    RunTwo(v, a, b);
    RunMore(v, [a, b], c);
    assert [a, b] + [c] == [a, b, c];
  }

  lemma RunFive(v: View, a: Op, b: Op, c: Op, d: Op, e: Op)
    ensures Run(v, [a, b, c, d, e]) == Step(Step(Step(Step(Step(v, a), b), c), d), e)
  {
    hide Step, Run;
    RunThree(v, a, b, c);
    RunMore(v, [a, b, c], d);
    RunMore(v, [a, b, c, d], e);
    assert [a, b, c] + [d] == [a, b, c, d] && [a, b, c, d] + [e] == [a, b, c, d, e];
  }

  /** A growing decay lets an introduction displace a direct peer. */
  lemma GrowingDecayLengthens(cfg: Config)
    requires Introduces(cfg) && cfg.decay > 1.0
    ensures exists ops, op :: Lengthens(cfg, ops, op)
  {
    hide Lower, Step, Run;
    var v := NewView(cfg);
    var a, b, c, e := FourNames(cfg);
    var v1 := DirectAdds(v, a);
    var v2 := DirectAdds(v1, b);
    var v3 := VouchAdds(v2, b, a, 1, 1.0);
    RunTwo(v, Direct(a), Direct(b));
    assert Lengthens(cfg, [Direct(a), Direct(b)], Vouch(b, a));
  }

  /** A negative one makes the third hop outweigh the second. */
  lemma AlternatingDecayLengthens(cfg: Config)
    requires Introduces(cfg) && cfg.decay < 0.0 && cfg.maxHops >= 3
    ensures exists ops, op :: Lengthens(cfg, ops, op)
  {
    hide Lower, Step, Run;
    var v, d := NewView(cfg), cfg.decay;
    var a, b, c, e := FourNames(cfg);
    assert 1.0 * d == d && d * d > 0.0;
    var v1 := DirectAdds(v, a);
    var v2 := VouchAdds(v1, b, a, 1, 1.0);
    var v3 := VouchAdds(v2, c, a, 1, 1.0);
    var v4 := VouchAdds(v3, c, b, 2, d);
    RunThree(v, Direct(a), Vouch(b, a), Vouch(c, a));
    assert Lengthens(cfg, [Direct(a), Vouch(b, a), Vouch(c, a)], Vouch(c, b));
  }

  /** A domain's hops never increase, over any run, exactly for the stable settings. The default
      decay of one half is one of them. */
  lemma HopsNeverIncreaseIffStable(cfg: Config)
    ensures Stable(cfg) <==> !exists ops, op :: Lengthens(cfg, ops, op)
  {
    if Stable(cfg) {
      forall ops, op ensures !Lengthens(cfg, ops, op) {
        RunWeighs(cfg, ops);
        RunDirect(cfg, ops);
        StepCloser(Run(NewView(cfg), ops), op);
      }
    } else if cfg.decay > 1.0 {
      GrowingDecayLengthens(cfg);
    } else {
      AlternatingDecayLengthens(cfg);
    }
  }

  // ---- trust travels only along vouching that happened ----

  ghost predicate AddedAt(ops: seq<Op>, i: int, d: string) {
    0 <= i < |ops| && ops[i].Add? && Lower(ops[i].domain) == d
  }

  ghost predicate VouchedAt(ops: seq<Op>, i: int, p: Peer) {
    && 0 <= i < |ops| && ops[i].Attest? && Lower(ops[i].att.subjectDomain) == p.domain
    && ops[i].att.issuerDomain == p.introducedBy && ops[i].att.subjectNodeId == p.nodeId && ops[i].att.trust == p.trust
  }

  /** A peer is direct because a call verified it, or introduced because a peer now closer than
      it vouched for it. */
  ghost predicate Rooted(v: View, ops: seq<Op>, d: string)
    requires d in v.peers
  {
    var p := v.peers[d];
    if p.hops == 1 then (exists i :: AddedAt(ops, i, d)) && (p.trust == VERIFIED || p.trust == PEERED)
    else
      && (exists i :: VouchedAt(ops, i, p))
      && Lower(p.introducedBy) in v.peers && v.peers[Lower(p.introducedBy)].hops < p.hops
  }

  ghost predicate AllRooted(v: View, ops: seq<Op>) { forall d :: d in v.peers ==> Rooted(v, ops, d) }

  lemma StepKeepsRooted(v: View, ops: seq<Op>, op: Op)
    requires Weighed(v) && DirectIfIsolated(v) && Stable(v.cfg) && AllRooted(v, ops)
    ensures AllRooted(Step(v, op), ops + [op])
  {
    hide Lower, Step, Power;
    StepKeepsWeighed(v, op);
    StepCloser(v, op);
    var w, all := Step(v, op), ops + [op];
    forall d | d in w.peers ensures Rooted(w, all, d) {
      if SamePeer(v, w, d) {
        var p := v.peers[d];
        if p.hops == 1 {
          var i :| AddedAt(ops, i, d);
          assert AddedAt(all, i, d);
        } else {
          var i :| VouchedAt(ops, i, p);
          assert VouchedAt(all, i, w.peers[d]);
        }
      } else if w.peers[d].hops == 1 {
        NewlyDirect(v, op, d);
        assert AddedAt(all, |ops|, d);
      } else {
        NewlyIntroduced(v, op, d);
        assert VouchedAt(all, |ops|, w.peers[d]);
      }
    }
  }

  ghost predicate SamePeer(v: View, w: View, d: string)
    requires d in w.peers
  {
    && d in v.peers && w.peers[d].hops == v.peers[d].hops && w.peers[d].introducedBy == v.peers[d].introducedBy
    && w.peers[d].nodeId == v.peers[d].nodeId && w.peers[d].trust == v.peers[d].trust
  }

  lemma NewlyDirect(v: View, op: Op, d: string)
    requires Weighed(v) && d in Step(v, op).peers && !SamePeer(v, Step(v, op), d) && Step(v, op).peers[d].hops == 1
    ensures op.Add? && Lower(op.domain) == d && Step(v, op).peers[d].trust in {VERIFIED, PEERED}
  {
  }

  lemma NewlyIntroduced(v: View, op: Op, d: string)
    requires Weighed(v) && d in Step(v, op).peers && !SamePeer(v, Step(v, op), d) && Step(v, op).peers[d].hops > 1
    ensures op.Attest? && Introduced(v, op.att, op.now) == Some(Step(v, op).peers[d])
    ensures Lower(op.att.issuerDomain) in v.peers
    ensures v.peers[Lower(op.att.issuerDomain)].hops + 1 == Step(v, op).peers[d].hops
  {
  }

  lemma {:induction false} RunRoots(cfg: Config, ops: seq<Op>)
    requires Stable(cfg)
    ensures AllRooted(Run(NewView(cfg), ops), ops)
    decreases |ops|
  {
    hide Step, AllRooted, Stable, Weighed, DirectIfIsolated;
    if ops == [] {
      NothingRooted(cfg);
    } else {
      var init := ops[..|ops| - 1];
      RunRoots(cfg, init);
      RunWeighs(cfg, init);
      RunDirect(cfg, init);
      assert ops == init + [ops[|ops| - 1]];
      StepKeepsRooted(Run(NewView(cfg), init), init, ops[|ops| - 1]);
    }
  }

  lemma NothingRooted(cfg: Config)
    ensures AllRooted(Run(NewView(cfg), []), [])
  {
  }

  /** A chain of introductions, from the peer itself to a directly verified one. */
  ghost predicate Chain(v: View, path: seq<string>) {
    && path != [] && (forall i :: 0 <= i < |path| ==> path[i] in v.peers)
    && v.peers[path[|path| - 1]].hops == 1
    && forall i :: 0 <= i < |path| - 1 ==>
         path[i + 1] == Lower(v.peers[path[i]].introducedBy) && v.peers[path[i + 1]].hops < v.peers[path[i]].hops
  }

  lemma {:induction false} FollowIntroductions(v: View, ops: seq<Op>, d: string) returns (path: seq<string>)
    requires Weighed(v) && AllRooted(v, ops) && d in v.peers
    ensures Chain(v, path) && path[0] == d && |path| <= v.peers[d].hops
    decreases v.peers[d].hops
  {
    if v.peers[d].hops == 1 {
      path := [d];
    } else {
      assert Rooted(v, ops, d);
      var rest := FollowIntroductions(v, ops, Lower(v.peers[d].introducedBy));
      path := [d] + rest;
    }
  }

  /** In every reachable table, following `introducedBy` strictly approaches, and within the hop
      cap reaches, a peer that some call verified directly; and a decaying weight never exceeds
      the introducer's. */
  lemma TrustHasARoot(cfg: Config, ops: seq<Op>, d: string) returns (path: seq<string>, root: string)
    requires Stable(cfg) && d in Run(NewView(cfg), ops).peers
    ensures Chain(Run(NewView(cfg), ops), path) && path[0] == d
    ensures |path| == 1 || |path| <= cfg.maxHops
    ensures root == path[|path| - 1] && exists i :: AddedAt(ops, i, root)
    ensures 0.0 <= cfg.decay <= 1.0 && |path| > 1 ==>
              Run(NewView(cfg), ops).peers[path[0]].weight <= Run(NewView(cfg), ops).peers[path[1]].weight
  {
    hide Run, Lower, Power, VouchedAt, Stable;
    var v := Run(NewView(cfg), ops);
    RunWeighs(cfg, ops);
    RunRoots(cfg, ops);
    path := FollowIntroductions(v, ops, d);
    root := path[|path| - 1];
    assert Rooted(v, ops, root);
    if 0.0 <= cfg.decay <= 1.0 && |path| > 1 {
      PowerFalls(cfg.decay, v.peers[path[1]].hops - 1, v.peers[d].hops - 1);
    }
  }

  // ---- exactly the stable settings keep trust rooted ----

  ghost predicate HasChain(v: View, d: string) { exists path :: Chain(v, path) && path[0] == d }

  /** Every listed peer has a chain of strictly closer introducers down to a direct one. */
  ghost predicate AllChained(v: View) { forall d :: d in v.peers ==> HasChain(v, d) }

  lemma ChainCloser(v: View, path: seq<string>)
    requires Chain(v, path)
    ensures path[0] in v.peers
    ensures var p := v.peers[path[0]];
            p.hops == 1
            || (Lower(p.introducedBy) in v.peers && v.peers[Lower(p.introducedBy)].hops < p.hops)
  {
    hide Lower;
    if |path| > 1 { assert path[0 + 1] in v.peers; }
  }

  lemma NoChain(v: View, d: string)
    requires d in v.peers && v.peers[d].hops > 1
    requires var i := Lower(v.peers[d].introducedBy); i in v.peers && v.peers[i].hops >= v.peers[d].hops
    ensures !HasChain(v, d)
  {
    hide Lower;
    if path: seq<string> :| Chain(v, path) && path[0] == d { ChainCloser(v, path); }
  }

  lemma StableChains(cfg: Config, ops: seq<Op>)
    requires Stable(cfg)
    ensures AllChained(Run(NewView(cfg), ops))
  {
    hide Run, Stable, Rooted;
    var v := Run(NewView(cfg), ops);
    RunWeighs(cfg, ops);
    RunRoots(cfg, ops);
    forall d | d in v.peers ensures HasChain(v, d) {
      var path := FollowIntroductions(v, ops, d);
    }
  }

  lemma GrowingDecayUnchains(cfg: Config, a: string, b: string, c: string, e: string)
    requires Introduces(cfg) && cfg.decay > 1.0 && Distinct4(Lower(cfg.selfDomain), a, b, c, e)
    ensures exists ops :: !AllChained(Run(NewView(cfg), ops))
  {
    hide Lower, Step, Run, HasChain;
    var v := NewView(cfg);
    var v1 := DirectAdds(v, a);
    var v2 := DirectAdds(v1, b);
    var v3 := DirectAdds(v2, c);
    var v4 := VouchAdds(v3, b, a, 1, 1.0);
    var v5 := VouchAdds(v4, a, c, 1, 1.0);
    RunFive(v, Direct(a), Direct(b), Direct(c), Vouch(b, a), Vouch(a, c));
    NoChain(v5, b);
  }

  lemma AlternatingDecayUnchains(cfg: Config, a: string, b: string, c: string, e: string)
    requires Introduces(cfg) && cfg.decay < 0.0 && cfg.maxHops >= 3 && Distinct4(Lower(cfg.selfDomain), a, b, c, e)
    ensures exists ops :: !AllChained(Run(NewView(cfg), ops))
  {
    hide Lower, Step, Run, HasChain;
    var v, d := NewView(cfg), cfg.decay;
    assert 1.0 * d == d && d * d > 0.0;
    var v1 := DirectAdds(v, a);
    var v2 := VouchAdds(v1, b, a, 1, 1.0);
    var v3 := VouchAdds(v2, c, a, 1, 1.0);
    var v4 := VouchAdds(v3, e, c, 2, d);
    var v5 := VouchAdds(v4, c, b, 2, d);
    RunFive(v, Direct(a), Vouch(b, a), Vouch(c, a), Vouch(e, c), Vouch(c, b));
    NoChain(v5, e);
  }

  /** Trust has a root in every reachable table exactly for the stable settings. */
  lemma TrustHasARootIffStable(cfg: Config)
    ensures Stable(cfg) <==> forall ops :: AllChained(Run(NewView(cfg), ops))
  {
    hide Run, AllChained;
    if Stable(cfg) {
      forall ops ensures AllChained(Run(NewView(cfg), ops)) { StableChains(cfg, ops); }
    } else {
      var a, b, c, e := FourNames(cfg);
      if cfg.decay > 1.0 { GrowingDecayUnchains(cfg, a, b, c, e); } else { AlternatingDecayUnchains(cfg, a, b, c, e); }
    }
  }

  // ---- cliques ----

  /** No call adds a member of the clique directly, and nobody outside it vouches into it. */
  ghost predicate Outside(clique: set<string>, op: Op) {
    && (op.Add? ==> Lower(op.domain) !in clique)
    && (op.Attest? ==> Lower(op.att.subjectDomain) in clique ==> Lower(op.att.issuerDomain) in clique)
  }

  /** Identities that only vouch for each other never enter the table, for any settings. */
  lemma {:induction false} CliqueStaysOut(cfg: Config, ops: seq<Op>, clique: set<string>)
    requires forall i :: 0 <= i < |ops| ==> Outside(clique, ops[i])
    ensures Run(NewView(cfg), ops).peers.Keys !! clique
    decreases |ops|
  {
    if ops != [] {
      CliqueStaysOut(cfg, ops[..|ops| - 1], clique);
      assert Outside(clique, ops[|ops| - 1]);
    }
  }

  // ---- revocation ----

  lemma {:induction false} RevocationsGrow(v: View, ops: seq<Op>)
    ensures v.revocations <= Run(v, ops).revocations
    decreases |ops|
  {
    if ops != [] { RevocationsGrow(v, ops[..|ops| - 1]); }
  }

  /** A revoked node id has no trust, under any domain, after any later calls, re-adding it included. */
  lemma RevokedForever(v: View, nodeId: string, ops: seq<Op>, domain: string)
    requires var w := Run(Revoke(v, nodeId), ops); Lower(domain) in w.peers && w.peers[Lower(domain)].nodeId == nodeId
    ensures TrustOf(Run(Revoke(v, nodeId), ops), domain) == (UNKNOWN, 0.0)
  {
    RevocationsGrow(Revoke(v, nodeId), ops);
    assert nodeId in Revoke(v, nodeId).revocations;
  }

  /** A revoked id cannot be introduced again. */
  lemma RevokedNotIntroduced(v: View, nodeId: string, ops: seq<Op>, att: Attestation, now: int)
    requires att.subjectNodeId == nodeId
    ensures IngestAttestation(Run(Revoke(v, nodeId), ops), att, now) == Run(Revoke(v, nodeId), ops)
  {
    RevocationsGrow(Revoke(v, nodeId), ops);
    assert nodeId in Revoke(v, nodeId).revocations;
  }

  /** This call revokes the id in this table. */
  predicate Revokes(v: View, op: Op, nodeId: string) {
    || (op.RevokeOp? && op.nodeId == nodeId)
    || (op.GossipRevocation? && op.nodeId == nodeId && MayRevoke(v, op.fromDomain))
  }

  /** This call verifies the id directly under this domain, and is not refused as a replay. */
  predicate Verifies(v: View, op: Op, nodeId: string, d: string) {
    op.Add? && op.nodeId == nodeId && Lower(op.domain) == d && !Replayed(v, op.domain, op.sequence)
  }

  /** The id was verified directly under this domain, and no later call revoked it. */
  ghost predicate Relisted(v: View, ops: seq<Op>, nodeId: string, d: string) {
    exists i :: 0 <= i < |ops| && RelistedAt(v, ops, nodeId, d, i)
  }

  ghost predicate RelistedAt(v: View, ops: seq<Op>, nodeId: string, d: string, i: int)
    requires 0 <= i < |ops|
  {
    && Verifies(Run(v, ops[..i]), ops[i], nodeId, d)
    && forall k :: i < k < |ops| ==> !Revokes(Run(v, ops[..k]), ops[k], nodeId)
  }

  lemma RelistedStep(v: View, ops: seq<Op>, nodeId: string, d: string)
    requires ops != []
    ensures var n := |ops| - 1; var before := Run(v, ops[..n]);
            Relisted(v, ops, nodeId, d) <==>
            || Verifies(before, ops[n], nodeId, d)
            || (Relisted(v, ops[..n], nodeId, d) && !Revokes(before, ops[n], nodeId))
  {
    hide Run, Verifies, Revokes;
    var n := |ops| - 1;
    var init := ops[..n];
    assert forall k :: 0 <= k <= n ==> init[..k] == ops[..k];
    if Verifies(Run(v, init), ops[n], nodeId, d) {
      assert RelistedAt(v, ops, nodeId, d, n);
    }
    if Relisted(v, init, nodeId, d) && !Revokes(Run(v, init), ops[n], nodeId) {
      var i :| 0 <= i < n && RelistedAt(v, init, nodeId, d, i);
      assert RelistedAt(v, ops, nodeId, d, i);
    }
    if Relisted(v, ops, nodeId, d) {
      var i :| 0 <= i < |ops| && RelistedAt(v, ops, nodeId, d, i);
      if i < n { assert RelistedAt(v, init, nodeId, d, i); }
    }
  }

  /** The flag of a peer of the id is down exactly when it was verified anew, and then it is the direct
      peer that verification made. */
  ghost predicate FlagTells(w: View, nodeId: string, d: string, relisted: bool) {
    d in w.peers && w.peers[d].nodeId == nodeId ==>
      && (!w.peers[d].revoked <==> relisted)
      && (relisted ==> w.peers[d].weight == 1.0 && Rank(w.peers[d].trust) >= Rank(VERIFIED))
  }

  lemma StepKeepsFlag(w: View, op: Op, nodeId: string, d: string, relisted: bool)
    requires nodeId in w.revocations && FlagTells(w, nodeId, d, relisted)
    ensures FlagTells(Step(w, op), nodeId, d, Verifies(w, op, nodeId, d) || (relisted && !Revokes(w, op, nodeId)))
  {
    hide Lower;
  }

  lemma {:induction false} RunFlags(v: View, nodeId: string, ops: seq<Op>, d: string)
    ensures FlagTells(Run(Revoke(v, nodeId), ops), nodeId, d, Relisted(Revoke(v, nodeId), ops, nodeId, d))
    decreases |ops|
  {
    hide Step, Verifies, Revokes, Relisted;
    var start := Revoke(v, nodeId);
    if ops == [] {
      NeverRelisted(start, nodeId, d);
    } else {
      var n := |ops| - 1;
      RunFlags(v, nodeId, ops[..n], d);
      RevocationsGrow(start, ops[..n]);
      assert nodeId in start.revocations;
      RelistedStep(start, ops, nodeId, d);
      StepKeepsFlag(Run(start, ops[..n]), ops[n], nodeId, d, Relisted(start, ops[..n], nodeId, d));
    }
  }

  lemma NeverRelisted(v: View, nodeId: string, d: string)
    ensures !Relisted(v, [], nodeId, d)
  {
  }

  /** Exactly when a revoked id is listed again: over any later calls, a peer of that id is reachable if
      and only if some call verified it directly under that domain and no later one revoked it, and the
      weight floor admits direct peers at all. Nothing else lowers the flag. */
  lemma RevokedReachableIff(v: View, nodeId: string, ops: seq<Op>, d: string)
    requires var w := Run(Revoke(v, nodeId), ops); d in w.peers && w.peers[d].nodeId == nodeId
    ensures var w := Run(Revoke(v, nodeId), ops);
            && (w.peers[d].revoked <==> !Relisted(Revoke(v, nodeId), ops, nodeId, d))
            && (IsReachable(w, d, VERIFIED) <==>
                  Relisted(Revoke(v, nodeId), ops, nodeId, d) && v.cfg.minWeight <= 1.0)
  {
    hide Relisted, Step;
    RunFlags(v, nodeId, ops, d);
    ConfigFixed(Revoke(v, nodeId), ops);
  }

  lemma {:induction false} ConfigFixed(v: View, ops: seq<Op>)
    ensures Run(v, ops).cfg == v.cfg
    decreases |ops|
  {
    hide Lower, Introduced, Replayed;
    if ops != [] { ConfigFixed(v, ops[..|ops| - 1]); }
  }

  /** A peer a rotation would take for this id, in whatever case it is written, has no trust. */
  ghost predicate NoTrustUnder(w: View, nodeId: string) {
    forall d: string :: Lower(d) in w.peers && Lower(w.peers[Lower(d)].nodeId) == Lower(nodeId) ==>
      TrustOf(w, d) == (UNKNOWN, 0.0)
  }

  lemma OtherSpellingTrusted(v: View, nodeId: string, r: string)
    requires Lower(r) == Lower(nodeId) && r !in v.revocations
    ensures exists ops :: !NoTrustUnder(Run(v, ops), nodeId)
  {
    hide Lower, Run;
    var op := Add("", r, "", false, 1, 0, "", []);
    RunMore(v, [], op);
    NoCalls(v);
    assert TrustOf(Run(v, [] + [op]), "") == (VERIFIED, 1.0);
    assert !NoTrustUnder(Run(v, [] + [op]), nodeId);
  }

  lemma NoCalls(v: View)
    ensures Run(v, []) == v
  {
  }

  lemma RevokedSpellings(v: View, nodeId: string, ops: seq<Op>)
    requires forall r: string :: Lower(r) == Lower(nodeId) ==> r in v.revocations
    ensures NoTrustUnder(Run(v, ops), nodeId)
  {
    hide Lower, Run;
    RevocationsGrow(v, ops);
  }

  /** Revocation compares ids as written, rotation does not: an identity is without trust over all
      later calls exactly when every spelling of its id is revoked. */
  lemma EverySpellingRevokedIff(v: View, nodeId: string)
    ensures (forall ops :: NoTrustUnder(Run(Revoke(v, nodeId), ops), nodeId)) <==>
            forall r: string :: Lower(r) == Lower(nodeId) ==> r in v.revocations + {nodeId}
  {
    hide Lower, Run, NoTrustUnder, RevokePeers;
    var start := Revoke(v, nodeId);
    assert start.revocations == v.revocations + {nodeId};
    if forall r: string :: Lower(r) == Lower(nodeId) ==> r in start.revocations {
      forall ops ensures NoTrustUnder(Run(start, ops), nodeId) { RevokedSpellings(start, nodeId, ops); }
    } else {
      var r: string :| Lower(r) == Lower(nodeId) && r !in start.revocations;
      OtherSpellingTrusted(start, nodeId, r);
    }
  }

  /** Limits of it. A direct re-add clears the flag `reachable` reads, so the peer is listed
      although it has no trust; and ids are compared as written, so the same id in other case
      is not revoked, although a rotation would take the two for one identity. */
  lemma RevocationLimits(v: View, domain: string, nodeId: string, respelled: string, now: int)
    requires Lower(domain) !in v.peers && v.cfg.minWeight <= 1.0
    requires respelled != nodeId && Lower(respelled) == Lower(nodeId) && respelled !in v.revocations
    ensures var w := Step(Revoke(v, nodeId), Add(domain, nodeId, "", false, now, 0, "", []));
            IsReachable(w, Lower(domain), VERIFIED) && TrustOf(w, domain) == (UNKNOWN, 0.0)
    ensures var w := Step(Revoke(v, nodeId), Add(domain, respelled, "", false, now, 0, "", []));
            TrustOf(w, domain) == (VERIFIED, 1.0) && IsRotation(w, domain, nodeId, 1)
  {
  }

  // ---- sequence numbers of directly verified peers ----

  /** No introduction outweighs a direct verification. */
  predicate DirectPrevails(cfg: Config) {
    !Introduces(cfg) || -1.0 <= cfg.decay <= 1.0 || (cfg.decay < -1.0 && cfg.maxHops < 3)
  }

  lemma {:induction false} PowerWithinOne(d: real, n: nat)
    requires -1.0 <= d <= 1.0
    ensures -1.0 <= Power(d, n) <= 1.0
  {
    if n > 0 {
      PowerWithinOne(d, n - 1);
      ProductWithinOne(Power(d, n - 1), d);
    }
  }

  lemma ProductWithinOne(a: real, b: real)
    requires -1.0 <= a <= 1.0 && -1.0 <= b <= 1.0
    ensures -1.0 <= a * b <= 1.0
  {
    if b >= 0.0 {
      FractionWithinOne(a, b);
    } else {
      FractionWithinOne(-a, -b);
      assert -a * -b == a * b;
    }
  }

  lemma FractionWithinOne(a: real, b: real)
    requires -1.0 <= a <= 1.0 && 0.0 <= b <= 1.0
    ensures -1.0 <= a * b <= 1.0
  {
    ProductNotNegative(1.0 - a, b);
    ProductNotNegative(1.0 + a, b);
    assert (1.0 - a) * b == b - a * b && (1.0 + a) * b == b + a * b;
  }

  lemma ProductNotNegative(a: real, b: real)
    requires a >= 0.0 && b >= 0.0
    ensures a * b >= 0.0
  {
  }

  lemma DirectIsPreferred(v: View, att: Attestation, now: int, existing: Peer)
    requires Weighed(v) && DirectIfIsolated(v) && DirectPrevails(v.cfg)
    requires Introduced(v, att, now).Some? && existing.domain in v.peers && v.peers[existing.domain] == existing
    requires existing.hops == 1
    ensures Preferred(existing, Introduced(v, att, now).value)
  {
    hide Introduced;
    var p := Introduced(v, att, now).value;
    IntroducedWeighs(v, att, now);
    assert existing.weight == Power(v.cfg.decay, 0) == 1.0;
    if -1.0 <= v.cfg.decay <= 1.0 {
      PowerWithinOne(v.cfg.decay, p.hops - 1);
    } else {
      IntroducedMeansIntroduces(v, att, now);
      assert Power(v.cfg.decay, 1) == Power(v.cfg.decay, 0) * v.cfg.decay;
    }
  }

  lemma IntroducedMeansIntroduces(v: View, att: Attestation, now: int)
    requires Weighed(v) && DirectIfIsolated(v) && Introduced(v, att, now).Some?
    ensures Introduces(v.cfg)
  {
    assert Power(v.cfg.decay, 0) == 1.0;
  }

  /** `d` is direct, and its sequence is at least this. */
  ghost predicate DirectFrom(v: View, d: string, sequence: int) {
    d in v.peers && v.peers[d].hops == 1 && v.peers[d].sequence >= sequence
  }

  lemma StepKeepsSequence(v: View, op: Op, d: string, sequence: int)
    requires Weighed(v) && DirectIfIsolated(v) && DirectPrevails(v.cfg) && DirectFrom(v, d, sequence)
    ensures DirectFrom(Step(v, op), d, sequence)
  {
    hide Power, Introduced, Preferred;
    StepKeepsWeighed(v, op);
    if op.Attest? && Introduced(v, op.att, op.now).Some? && Introduced(v, op.att, op.now).value.domain == d {
      DirectIsPreferred(v, op.att, op.now, v.peers[d]);
    }
  }

  /** Once verified directly a peer stays direct, and its binding sequence never goes back, over any
      later calls, for every decay between -1 and 1, for a lower one with at most two hops, and where
      nothing can be introduced. */
  lemma {:induction false} DirectSequenceMonotone(cfg: Config, ops: seq<Op>, more: seq<Op>, d: string, sequence: int)
    requires DirectPrevails(cfg) && DirectFrom(Run(NewView(cfg), ops), d, sequence)
    ensures DirectFrom(Run(NewView(cfg), ops + more), d, sequence)
    decreases |more|
  {
    hide Step, DirectPrevails, DirectFrom;
    if more == [] {
      assert ops + more == ops;
    } else {
      var fewer, last := more[..|more| - 1], more[|more| - 1];
      DirectSequenceMonotone(cfg, ops, fewer, d, sequence);
      assert ops + more == (ops + fewer) + [last];
      RunMore(NewView(cfg), ops + fewer, last);
      RunWeighs(cfg, ops + fewer);
      RunDirect(cfg, ops + fewer);
      StepKeepsSequence(Run(NewView(cfg), ops + fewer), last, d, sequence);
    }
  }

  lemma GrowingDecayDisplaces(cfg: Config, a: string, b: string, c: string, e: string)
    requires Introduces(cfg) && cfg.decay > 1.0 && Distinct4(Lower(cfg.selfDomain), a, b, c, e)
    ensures exists ops, more, d :: Displaced(cfg, ops, more, d)
  {
    hide Lower, Step, Run;
    var v := NewView(cfg);
    var v1 := DirectAdds(v, a);
    var v2 := DirectAdds(v1, b);
    var v3 := VouchAdds(v2, b, a, 1, 1.0);
    var ops := [Direct(a), Direct(b)];
    RunTwo(v, Direct(a), Direct(b));
    RunMore(v, ops, Vouch(b, a));
    assert DirectFrom(Run(v, ops), b, v2.peers[b].sequence);
    assert Displaced(cfg, ops, [Vouch(b, a)], b);
  }

  lemma AlternatingDecayDisplaces(cfg: Config, a: string, b: string, c: string, e: string)
    requires Introduces(cfg) && cfg.decay < -1.0 && cfg.maxHops >= 3 && Distinct4(Lower(cfg.selfDomain), a, b, c, e)
    ensures exists ops, more, d :: Displaced(cfg, ops, more, d)
  {
    hide Lower, Step, Run;
    var v, d := NewView(cfg), cfg.decay;
    SquareAboveOne(d);
    var v1 := DirectAdds(v, a);
    var v2 := DirectAdds(v1, b);
    var v3 := VouchAdds(v2, c, a, 1, 1.0);
    var v4 := VouchAdds(v3, b, c, 2, d);
    var ops := [Direct(a), Direct(b), Vouch(c, a)];
    RunThree(v, Direct(a), Direct(b), Vouch(c, a));
    RunMore(v, ops, Vouch(b, c));
    assert DirectFrom(Run(v, ops), b, v3.peers[b].sequence);
    assert Displaced(cfg, ops, [Vouch(b, c)], b);
  }

  lemma SquareAboveOne(d: real)
    requires d < -1.0
    ensures d * d > 1.0 && 1.0 * d == d
  {
    ProductNotNegative(-d - 1.0, -d - 1.0);
    assert (-d - 1.0) * (-d - 1.0) == d * d + 2.0 * d + 1.0;
  }

  /** A peer that was direct and then is not, or whose sequence went back. */
  ghost predicate Displaced(cfg: Config, ops: seq<Op>, more: seq<Op>, d: string) {
    exists sequence :: && DirectFrom(Run(NewView(cfg), ops), d, sequence)
                       && !DirectFrom(Run(NewView(cfg), ops + more), d, sequence)
  }

  /** A direct verification is never displaced, nor its sequence lost, exactly for those settings. */
  lemma DirectSequenceMonotoneIff(cfg: Config)
    ensures DirectPrevails(cfg) <==> !exists ops, more, d :: Displaced(cfg, ops, more, d)
  {
    hide Run, DirectFrom;
    if DirectPrevails(cfg) {
      forall ops, more, d ensures !Displaced(cfg, ops, more, d) {
        if sequence :| DirectFrom(Run(NewView(cfg), ops), d, sequence)
                       && !DirectFrom(Run(NewView(cfg), ops + more), d, sequence) {
          DirectSequenceMonotone(cfg, ops, more, d, sequence);
        }
      }
    } else {
      hide Displaced;
      var a, b, c, e := FourNames(cfg);
      if cfg.decay > 1.0 {
        GrowingDecayDisplaces(cfg, a, b, c, e);
      } else {
        AlternatingDecayDisplaces(cfg, a, b, c, e);
      }
    }
  }

  // ---- the federation object ----

  class FederationNode {
    const cfg: Config
    var peers: map<string, Peer>
    var revocations: set<string>

    constructor (cfg: Config)
      ensures State() == NewView(cfg)
    {
      this.cfg := cfg;
      peers, revocations := map[], {};
    }

    function State(): View
      reads this
    {
      View(cfg, peers, revocations)
    }

    method AddPeer(domain: string, nodeId: string, gatewayUrl: string, mutual: bool, now: int, sequence: int,
                   site: string, serves: seq<string>) returns (r: Result<Peer, string>)
      modifies this
      ensures State() == AddVerifiedPeer(old(State()), domain, nodeId, gatewayUrl, mutual, now, sequence, site, serves)
      ensures r.Err? <==> Replayed(old(State()), domain, sequence)
      ensures r.Ok? ==> Lower(domain) in peers && r.value == peers[Lower(domain)]
    {
      var d := Lower(domain);
      var known := 0;
      if d in peers {
        if sequence != 0 && sequence < peers[d].sequence { return Err("refusing a replayed certificate binding"); }
        known := peers[d].sequence;
      }
      var p := Peer(d, nodeId, gatewayUrl, if mutual then PEERED else VERIFIED, 1, 1.0, "", now, false,
                    if sequence > known then sequence else known, site, serves);
      peers := peers[d := p];
      return Ok(p);
    }

    method Rotated(domain: string, nodeId: string, sequence: int, now: int) returns (ok: bool)
      modifies this
      ensures State() == NoteRotation(old(State()), domain, nodeId, sequence, now)
      ensures ok <==> IsRotation(old(State()), domain, nodeId, sequence)
    {
      var d := Lower(domain);
      if d !in peers { return false; }
      var p := peers[d];
      if Lower(p.nodeId) != Lower(nodeId) { return false; }
      if sequence <= p.sequence { return false; }
      p := p.(sequence := sequence);
      p := p.(lastSeen := now);
      peers := peers[d := p];
      return true;
    }

    method Ingest(att: Attestation, now: int) returns (r: Option<Peer>)
      modifies this
      ensures State() == IngestAttestation(old(State()), att, now)
      ensures r.Some? <==> Introduced(old(State()), att, now).Some?
      ensures r.Some? ==> Lower(att.subjectDomain) in peers && r.value == peers[Lower(att.subjectDomain)]
    {
      if now > att.expiresAt { return None; }
      var issuer := Lower(att.issuerDomain);
      if issuer !in peers || peers[issuer].revoked { return None; }
      if att.subjectNodeId in revocations { return None; }
      var subject := Lower(att.subjectDomain);
      if subject == Lower(cfg.selfDomain) { return None; }
      var hops := peers[issuer].hops + 1;
      if hops > cfg.maxHops { return None; }
      var weight := peers[issuer].weight * cfg.decay;
      if weight < cfg.minWeight { return None; }
      if subject in peers && peers[subject].hops <= hops && peers[subject].weight >= weight {
        return Some(peers[subject]);
      }
      var p := Peer(subject, att.subjectNodeId, "", att.trust, hops, weight, att.issuerDomain, now, false, 0, "", []);
      assert Introduced(State(), att, now).Some? && Introduced(State(), att, now).value == p;
      peers := peers[subject := p];
      return Some(p);
    }

    method RevokeNode(nodeId: string) returns (tell: set<string>)
      modifies this
      ensures State() == Revoke(old(State()), nodeId) && tell == GossipTargets(State())
    {
      revocations := revocations + {nodeId};
      ghost var was := peers;
      var todo := peers.Keys;
      while exists d :: d in todo
        invariant todo <= was.Keys && peers.Keys == was.Keys
        invariant revocations == old(revocations) + {nodeId}
        invariant forall d :: d in todo ==> peers[d] == was[d]
        invariant forall d :: d in was.Keys - todo ==> peers[d] == RevokePeers(was, nodeId)[d]
        decreases |todo|
      {
        var d :| d in todo;
        if peers[d].nodeId == nodeId { peers := peers[d := peers[d].(revoked := true)]; }
        todo := todo - {d};
      }
      assert peers == RevokePeers(was, nodeId);
      tell := GossipTargets(State());
    }

    method Gossip(nodeId: string, fromDomain: string) returns (ok: bool)
      modifies this
      ensures State() == IngestRevocation(old(State()), nodeId, fromDomain)
      ensures ok <==> MayRevoke(old(State()), fromDomain)
    {
      var d := Lower(fromDomain);
      if d !in peers || peers[d].revoked || Rank(peers[d].trust) < Rank(VERIFIED) { return false; }
      var tell := RevokeNode(nodeId);
      return true;
    }
  }
}
