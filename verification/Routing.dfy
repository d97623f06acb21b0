/** federation/routing.py: choosing which peer serves a request. Trust and residency are
    constraints; latency and cost are optimised among the peers that satisfy them. */
module Routing {
  import opened Common
  import opened Reals

  const HOP_DECAY := 0.5
  const MAX_HOPS := 3
  const EWMA_ALPHA := 0.2
  const SWITCH_MARGIN := 0.15

  datatype Effect = OBSERVE | READ | WRITE | SETTLE

  function Floor(e: Effect): real { match e case OBSERVE => 0.0 case READ => 0.25 case WRITE => 0.5 case SETTLE => 1.0 }

  function ObligationCost(serverClass: string): int {
    if serverClass == "contracted" then 0 else if serverClass == "attested" then 4
    else if serverClass == "probed" then 15 else 40
  }

  datatype Metrics = Metrics(domain: string, hops: int, trustWeight: real, site: string, serverClass: string,
                             priceMinor: int, latencyMs: real, samples: nat, failures: nat, revoked: bool,
                             lastSeen: int)

  /** `None` stands for a limit that is not set, and for an empty class. */
  datatype Policy = Policy(effect: Effect, latencyWeight: real, costWeight: real, tolerance: real,
                           maxLatency: Option<real>, maxCost: Option<int>, requireClass: Option<string>,
                           homeSite: string, crossSiteCost: int, permittedSites: Option<set<string>>)

  function Max(a: real, b: real): real { if a >= b then a else b }

  function EffectiveTrust(m: Metrics): real {
    if m.revoked || m.hops > MAX_HOPS then 0.0
    else Times(m.trustWeight, Power(HOP_DECAY, if m.hops >= 1 then m.hops - 1 else 0))
  }

  function SuccessRate(m: Metrics): real {
    if m.samples == 0 then 1.0 else Max(0.0, 1.0 - (m.failures as real) / (m.samples as real))
  }

  predicate Crosses(p: Policy, m: Metrics) { p.homeSite != "" && m.site != p.homeSite }

  function TotalCost(m: Metrics, p: Policy): int {
    m.priceMinor + ObligationCost(m.serverClass) + if Crosses(p, m) then p.crossSiteCost else 0
  }

  datatype Ruling = Admitted | Revoked | TooFar | TooLittleTrust | OutsideRegion | OtherClass | TooSlow | TooDear

  function Admissible(m: Metrics, p: Policy): Ruling {
    if m.revoked then Revoked
    else if m.hops > MAX_HOPS then TooFar
    else if EffectiveTrust(m) < Floor(p.effect) then TooLittleTrust
    else if p.permittedSites.Some? && m.site !in p.permittedSites.value then OutsideRegion
    else if p.requireClass.Some? && m.serverClass != p.requireClass.value then OtherClass
    else if p.maxLatency.Some? && m.latencyMs > p.maxLatency.value then TooSlow
    else if p.maxCost.Some? && TotalCost(m, p) > p.maxCost.value then TooDear
    else Admitted
  }

  function Penalty(m: Metrics): real { 1.0 / Max(SuccessRate(m), 0.05) }

  /** Lower is better. */
  function Score(m: Metrics, p: Policy): real {
    Times(Times(p.latencyWeight, m.latencyMs) + Times(p.costWeight, TotalCost(m, p) as real), Penalty(m))
  }

  datatype Candidate = Candidate(peer: Metrics, score: real)

  // ---- selection ----

  function Candidates(peers: seq<Metrics>, p: Policy): (cs: seq<Candidate>)
    ensures forall c :: c in cs <==>
              exists m :: m in peers && Admissible(m, p) == Admitted && c == Candidate(m, Score(m, p))
    decreases |peers|
  {
    if peers == [] then [] else
    var n := |peers| - 1;
    assert peers == peers[..n] + [peers[n]];
    Candidates(peers[..n], p)
    + if Admissible(peers[n], p) == Admitted then [Candidate(peers[n], Score(peers[n], p))] else []
  }

  function Place(c: Candidate, cs: seq<Candidate>): (r: seq<Candidate>)
    ensures forall x :: x in r <==> x == c || x in cs
  {
    if cs == [] then [c] else if c.score <= cs[0].score then [c] + cs else [cs[0]] + Place(c, cs[1..])
  }

  /** A stable sort by score. */
  function Ranked(cs: seq<Candidate>): (r: seq<Candidate>)
    ensures forall x :: x in r <==> x in cs
    ensures |r| == 0 <==> |cs| == 0
  {
    if cs == [] then [] else Place(cs[0], Ranked(cs[1..]))
  }

  function Band(ranked: seq<Candidate>, limit: real): (r: seq<Candidate>)
    ensures forall x :: x in r <==> x in ranked && x.score <= limit
  {
    if ranked == [] then []
    else (if ranked[0].score <= limit then [ranked[0]] else []) + Band(ranked[1..], limit)
  }

  /** The candidates within tolerance of the best, or the best alone when even it is not. */
  function Choices(ranked: seq<Candidate>, tolerance: real): (r: seq<Candidate>)
    requires ranked != []
    ensures r != []
  {
    var band := Band(ranked, Times(ranked[0].score, 1.0 + tolerance));
    if band != [] then band else ranked[..1]
  }

  function FirstOf(cs: seq<Candidate>, domain: string): (r: Option<Candidate>)
    ensures r.Some? ==> r.value in cs && r.value.peer.domain == domain
    ensures r.None? ==> forall c :: c in cs ==> c.peer.domain != domain
  {
    if cs == [] then None else if cs[0].peer.domain == domain then Some(cs[0]) else FirstOf(cs[1..], domain)
  }

  function Choose(ranked: seq<Candidate>, p: Policy, incumbent: string, draw: nat): Candidate
    requires ranked != []
  {
    var band := Choices(ranked, p.tolerance);
    var held := if incumbent != "" then FirstOf(band, incumbent) else None;
    if held.Some? && held.value.score <= Times(ranked[0].score, 1.0 + SWITCH_MARGIN) then held.value
    else band[draw % |band|]
  }

  /** `draw` is what the random generator yields; no incumbent is the empty text. */
  function Select(peers: seq<Metrics>, p: Policy, incumbent: string, draw: nat): Option<Candidate> {
    var ranked := Ranked(Candidates(peers, p));
    if ranked == [] then None else Some(Choose(ranked, p, incumbent, draw))
  }

  method SelectPeer(peers: seq<Metrics>, p: Policy, incumbent: string, draw: nat)
    returns (chosen: Option<Candidate>, refused: seq<(string, Ruling)>)
    ensures chosen == Select(peers, p, incumbent, draw)
    ensures chosen.None? ==> |refused| == |peers| && forall i :: 0 <= i < |peers| ==>
              refused[i] == (peers[i].domain, Admissible(peers[i], p)) && refused[i].1 != Admitted
  {
    hide Admissible, Score, Ranked, Choose;
    var admitted: seq<Candidate> := [];
    refused := [];
    var i := 0;
    while i < |peers|
      invariant 0 <= i <= |peers| && admitted == Candidates(peers[..i], p)
      invariant admitted == [] ==> |refused| == i && forall k :: 0 <= k < i ==>
                  refused[k] == (peers[k].domain, Admissible(peers[k], p)) && refused[k].1 != Admitted
    {
      assert peers[..i + 1][..i] == peers[..i];
      var ruling := Admissible(peers[i], p);
      if ruling == Admitted {
        admitted := admitted + [Candidate(peers[i], Score(peers[i], p))];
      } else {
        refused := refused + [(peers[i].domain, ruling)];
      }
      i := i + 1;
    }
    assert peers[..|peers|] == peers;
    if admitted == [] { return None, refused; }
    return Some(Choose(Ranked(admitted), p, incumbent, draw)), refused;
  }

  lemma {:induction false} RankedFirstIsBest(cs: seq<Candidate>)
    requires cs != []
    ensures Ranked(cs) != [] && forall c :: c in cs ==> Ranked(cs)[0].score <= c.score
  {
    if |cs| > 1 {
      RankedFirstIsBest(cs[1..]);
      assert cs == [cs[0]] + cs[1..];
      assert forall c :: c in Ranked(cs[1..]) ==> Ranked(cs[1..])[0].score <= c.score;
    }
  }

  /** `m` could serve, and no other peer that could scores lower. */
  ghost predicate Best(peers: seq<Metrics>, p: Policy, m: Metrics) {
    && m in peers && Admissible(m, p) == Admitted
    && forall n :: n in peers && Admissible(n, p) == Admitted ==> Score(m, p) <= Score(n, p)
  }

  /** What is chosen is in the ranking, and it leads it or is within the tolerance of the leader. */
  lemma ChosenFromBand(ranked: seq<Candidate>, p: Policy, incumbent: string, draw: nat)
    requires ranked != []
    ensures var c := Choose(ranked, p, incumbent, draw);
            c in ranked && (c == ranked[0] || c.score <= Times(ranked[0].score, 1.0 + p.tolerance))
  {
    hide Times;
    var band := Choices(ranked, p.tolerance);
    assert Choose(ranked, p, incumbent, draw) in band;
    assert forall c :: c in band ==>
                         c in ranked && (c.score <= Times(ranked[0].score, 1.0 + p.tolerance) || c == ranked[0]);
  }

  /** For every draw and any incumbent: selection fails exactly when no peer satisfies the
      constraints; otherwise it returns one that does, scored truly, and it is the best or within
      the tolerance of the best. Whatever the signs of weights, prices and tolerance. */
  lemma SelectIsSound(peers: seq<Metrics>, p: Policy, incumbent: string, draw: nat)
    ensures var r := Select(peers, p, incumbent, draw);
            && (r.None? <==> forall m :: m in peers ==> Admissible(m, p) != Admitted)
            && (r.Some? ==>
                  && r.value.peer in peers && Admissible(r.value.peer, p) == Admitted
                  && r.value.score == Score(r.value.peer, p)
                  && exists best :: Best(peers, p, best)
                       && (r.value.score == Score(best, p)
                           || r.value.score <= Times(Score(best, p), 1.0 + p.tolerance)))
  {
    hide Admissible, Score, Times, Ranked, Candidates, Choose;
    var cs := Candidates(peers, p);
    assert cs != [] ==> cs[0] in cs;
    if m :| m in peers && Admissible(m, p) == Admitted {
      assert Candidate(m, Score(m, p)) in cs;
      RankedFirstIsBest(cs);
      var first := Ranked(cs)[0];
      assert first in Ranked(cs) && first in cs;
      forall n | n in peers && Admissible(n, p) == Admitted ensures Score(first.peer, p) <= Score(n, p) {
        assert Candidate(n, Score(n, p)) in cs;
      }
      assert Best(peers, p, first.peer);
      ChosenFromBand(Ranked(cs), p, incumbent, draw);
      var c := Choose(Ranked(cs), p, incumbent, draw);
      assert Select(peers, p, incumbent, draw) == Some(c);
      assert c in cs;
      assert first.score == Score(first.peer, p);
    }
  }

  // ---- with nonnegative inputs ----

  ghost predicate NonNegative(peers: seq<Metrics>, p: Policy) {
    && p.latencyWeight >= 0.0 && p.costWeight >= 0.0 && p.tolerance >= 0.0 && p.crossSiteCost >= 0
    && forall m :: m in peers ==> m.latencyMs >= 0.0 && m.priceMinor >= 0
  }

  lemma ProductSign(a: real, b: real)
    requires a >= 0.0 && b >= 0.0
    ensures Times(a, b) >= 0.0
  {
  }

  lemma ProductMonotone(a: real, b: real, c: real)
    requires a <= b && c >= 0.0
    ensures Times(a, c) <= Times(b, c)
  {
    assert (b - a) * c >= 0.0;
  }

  lemma ProductAbove(a: real, t: real)
    requires a >= 0.0 && t >= 0.0
    ensures a <= Times(a, 1.0 + t)
  {
    assert a * t >= 0.0;
  }

  lemma PenaltyPositive(m: Metrics)
    ensures Penalty(m) >= 0.0
  {
    assert Max(SuccessRate(m), 0.05) >= 0.05;
  }

  lemma ScoreNonNegative(m: Metrics, p: Policy)
    requires p.latencyWeight >= 0.0 && p.costWeight >= 0.0 && p.crossSiteCost >= 0
    requires m.latencyMs >= 0.0 && m.priceMinor >= 0
    ensures Score(m, p) >= 0.0
  {
    hide Times, Penalty;
    ProductSign(p.latencyWeight, m.latencyMs);
    assert TotalCost(m, p) >= 0;
    ProductSign(p.costWeight, TotalCost(m, p) as real);
    PenaltyPositive(m);
    ProductSign(Times(p.latencyWeight, m.latencyMs) + Times(p.costWeight, TotalCost(m, p) as real), Penalty(m));
  }

  /** With nonnegative latencies, prices, weights and tolerance, every draw returns a peer scoring at
      most (1 + tolerance) times any admissible peer's score. */
  lemma SelectWithinTolerance(peers: seq<Metrics>, p: Policy, incumbent: string, draw: nat, other: Metrics)
    requires NonNegative(peers, p) && other in peers && Admissible(other, p) == Admitted
    ensures Select(peers, p, incumbent, draw).Some?
    ensures Select(peers, p, incumbent, draw).value.score <= Times(Score(other, p), 1.0 + p.tolerance)
  {
    hide Select, Admissible, Score, Times;
    SelectIsSound(peers, p, incumbent, draw);
    var r := Select(peers, p, incumbent, draw).value;
    var best :| && Best(peers, p, best)
                && (r.score == Score(best, p) || r.score <= Times(Score(best, p), 1.0 + p.tolerance));
    ScoreNonNegative(best, p);
    ProductAbove(Score(best, p), p.tolerance);
    ProductMonotone(Score(best, p), Score(other, p), 1.0 + p.tolerance);
  }

  ghost predicate DistinctDomains(peers: seq<Metrics>) {
    forall m, n :: m in peers && n in peers && m.domain == n.domain ==> m == n
  }

  /** The incumbent is close enough to the best for both the band and the switch margin. */
  ghost predicate Holds(peers: seq<Metrics>, p: Policy, m: Metrics) {
    m in peers && Admissible(m, p) == Admitted && exists best :: CloseToBest(peers, p, m, best)
  }

  /** The first of the ranking, under nonnegative inputs: the best, and inside the band. */
  lemma FirstInBand(peers: seq<Metrics>, p: Policy, m: Metrics) returns (first: Candidate)
    requires NonNegative(peers, p) && m in peers && Admissible(m, p) == Admitted
    ensures var ranked := Ranked(Candidates(peers, p));
            && ranked != [] && first == ranked[0] && first in Choices(ranked, p.tolerance)
            && Best(peers, p, first.peer) && first == Candidate(first.peer, Score(first.peer, p))
            && first.score <= Times(first.score, 1.0 + SWITCH_MARGIN)
            && forall c :: c in Choices(ranked, p.tolerance) <==>
                 c in Candidates(peers, p) && c.score <= Times(first.score, 1.0 + p.tolerance)
  {
    hide Admissible, Score, Times, Ranked, Candidates, Band;
    var cs := Candidates(peers, p);
    assert Candidate(m, Score(m, p)) in cs;
    RankedFirstIsBest(cs);
    first := Ranked(cs)[0];
    assert first in Ranked(cs) && first in cs;
    FirstIsBest(peers, p, first);
    ScoreNonNegative(first.peer, p);
    ProductAbove(first.score, p.tolerance);
    ProductAbove(first.score, SWITCH_MARGIN);
  }

  /** `c` is the only candidate of its domain. */
  ghost predicate Lone(cs: seq<Candidate>, c: Candidate) {
    forall x :: x in cs && x.peer.domain == c.peer.domain ==> x == c
  }

  lemma ChooseHeld(ranked: seq<Candidate>, p: Policy, mine: Candidate, draw: nat)
    requires ranked != [] && mine in Choices(ranked, p.tolerance) && Lone(Choices(ranked, p.tolerance), mine)
    requires mine.peer.domain != "" && mine.score <= Times(ranked[0].score, 1.0 + SWITCH_MARGIN)
    ensures Choose(ranked, p, mine.peer.domain, draw) == mine
  {
    hide Choices, Times;
  }

  lemma ChooseOther(ranked: seq<Candidate>, p: Policy, mine: Candidate) returns (draw: nat)
    requires ranked != [] && ranked[0] in Choices(ranked, p.tolerance) && Lone(Choices(ranked, p.tolerance), mine)
    requires ranked[0] != mine
    requires mine !in Choices(ranked, p.tolerance) || mine.score > Times(ranked[0].score, 1.0 + SWITCH_MARGIN)
    ensures Choose(ranked, p, mine.peer.domain, draw) != mine
  {
    hide Choices, Times;
    var band := Choices(ranked, p.tolerance);
    draw :| 0 <= draw < |band| && band[draw] == ranked[0];
    assert draw % |band| == draw;
  }

  ghost predicate CloseToBest(peers: seq<Metrics>, p: Policy, m: Metrics, best: Metrics) {
    && Best(peers, p, best) && Score(m, p) <= Times(Score(best, p), 1.0 + p.tolerance)
    && Score(m, p) <= Times(Score(best, p), 1.0 + SWITCH_MARGIN)
  }

  lemma BestScoresAgree(peers: seq<Metrics>, p: Policy, a: Metrics, b: Metrics)
    requires Best(peers, p, a) && Best(peers, p, b)
    ensures Score(a, p) == Score(b, p)
  {
    hide Admissible, Score;
  }

  lemma KeptOrLost(peers: seq<Metrics>, p: Policy, m: Metrics) returns (draw: nat)
    requires NonNegative(peers, p) && DistinctDomains(peers) && m.domain != ""
    requires m in peers && Admissible(m, p) == Admitted
    ensures Holds(peers, p, m) ==> forall d: nat :: Select(peers, p, m.domain, d) == Some(Candidate(m, Score(m, p)))
    ensures !Holds(peers, p, m) ==> Select(peers, p, m.domain, draw) != Some(Candidate(m, Score(m, p)))
  {
    hide Admissible, Score, Times, Ranked, Candidates, Choices, Choose, Best, NonNegative;
    draw := 0;
    var first := FirstInBand(peers, p, m);
    var ranked, mine := Ranked(Candidates(peers, p)), Candidate(m, Score(m, p));
    var band := Choices(ranked, p.tolerance);
    OnlyMine(Candidates(peers, p), peers, p, m);
    assert mine in Candidates(peers, p);
    if Holds(peers, p, m) {
      var best :| CloseToBest(peers, p, m, best);
      BestScoresAgree(peers, p, best, first.peer);
      forall d: nat ensures Select(peers, p, m.domain, d) == Some(mine) { ChooseHeld(ranked, p, mine, d); }
    } else {
      assert !CloseToBest(peers, p, m, first.peer);
      draw := ChooseOther(ranked, p, mine);
    }
  }

  /** With frozen metrics and distinct domains, an admissible incumbent is returned by every call,
      whatever is drawn, exactly when it is within both the tolerance and the switch margin: a
      tolerance below the margin is what decides then. */
  lemma IncumbentKeptIff(peers: seq<Metrics>, p: Policy, m: Metrics)
    requires NonNegative(peers, p) && DistinctDomains(peers) && m.domain != ""
    requires m in peers && Admissible(m, p) == Admitted
    ensures Holds(peers, p, m) <==>
            forall draw: nat :: Select(peers, p, m.domain, draw) == Some(Candidate(m, Score(m, p)))
  {
    hide Select, Holds, NonNegative, DistinctDomains, Admissible, Score;
    var draw := KeptOrLost(peers, p, m);
  }

  function QuickPeer(domain: string, latency: real): Metrics {
    Metrics(domain, 1, 1.0, "", "contracted", 0, latency, 0, 0, false, 0)
  }

  lemma QuickScore(domain: string, latency: real, p: Policy)
    requires p == Policy(OBSERVE, 1.0, 0.0, p.tolerance, None, None, None, "", 0, None)
    ensures Admissible(QuickPeer(domain, latency), p) == Admitted && Score(QuickPeer(domain, latency), p) == latency
  {
    var m := QuickPeer(domain, latency);
    assert Power(HOP_DECAY, 0) == 1.0 && EffectiveTrust(m) == 1.0;
    assert Penalty(m) == 1.0;
    assert Times(1.0, latency) + Times(0.0, TotalCost(m, p) as real) == latency;
  }

  /** An input on which the switch margin alone would keep the incumbent and the code may not: it is a
      tenth slower than the best, and the tolerance is a twentieth. */
  lemma SwitchMarginNotEnough()
    ensures var p := Policy(OBSERVE, 1.0, 0.0, 0.05, None, None, None, "", 0, None);
            var best, held := QuickPeer("a", 100.0), QuickPeer("b", 110.0);
            && Score(held, p) <= Times(Score(best, p), 1.0 + SWITCH_MARGIN)
            && exists draw: nat :: Select([best, held], p, "b", draw) != Some(Candidate(held, Score(held, p)))
  {
    var p := Policy(OBSERVE, 1.0, 0.0, 0.05, None, None, None, "", 0, None);
    var best, held := QuickPeer("a", 100.0), QuickPeer("b", 110.0);
    var peers := [best, held];
    QuickScore("a", 100.0, p);
    QuickScore("b", 110.0, p);
    hide Admissible, Score, Select;
    assert forall m :: m in peers <==> m == best || m == held;
    assert Best(peers, p, best);
    forall m | CloseToBest(peers, p, held, m) ensures Score(m, p) == 100.0 { BestScoresAgree(peers, p, best, m); }
    assert !Holds(peers, p, held);
    IncumbentKeptIff(peers, p, held);
  }

  lemma FirstIsBest(peers: seq<Metrics>, p: Policy, first: Candidate)
    requires first in Candidates(peers, p) && forall c :: c in Candidates(peers, p) ==> first.score <= c.score
    ensures Best(peers, p, first.peer) && first.score == Score(first.peer, p)
  {
    hide Admissible, Score, Candidates;
    forall n | n in peers && Admissible(n, p) == Admitted ensures Score(first.peer, p) <= Score(n, p) {
      assert Candidate(n, Score(n, p)) in Candidates(peers, p);
    }
  }

  lemma OnlyMine(cs: seq<Candidate>, peers: seq<Metrics>, p: Policy, m: Metrics)
    requires DistinctDomains(peers) && m in peers && cs == Candidates(peers, p)
    ensures forall c :: c in cs && c.peer.domain == m.domain ==> c == Candidate(m, Score(m, p))
  {
    hide Admissible, Score, Candidates;
  }

  // ---- trust is a constraint, not a price ----

  lemma {:induction false} DecayFalls(n: nat)
    ensures 0.0 < Power(HOP_DECAY, n) <= 1.0 && (n > 0 ==> Power(HOP_DECAY, n) <= 0.5)
  {
    if n > 0 { DecayFalls(n - 1); }
  }

  /** A settling request is only ever routed to a direct, unrevoked peer of full weight, whatever
      latency or price the others offer, as long as no weight exceeds one. */
  lemma SettlementIsDirect(peers: seq<Metrics>, p: Policy, incumbent: string, draw: nat)
    requires p.effect == SETTLE && Select(peers, p, incumbent, draw).Some?
    requires forall m :: m in peers ==> m.trustWeight <= 1.0
    ensures var m := Select(peers, p, incumbent, draw).value.peer; m.hops <= 1 && m.trustWeight == 1.0 && !m.revoked
  {
    hide Select;
    SelectIsSound(peers, p, incumbent, draw);
    var m := Select(peers, p, incumbent, draw).value.peer;
    var n := if m.hops >= 1 then m.hops - 1 else 0;
    DecayFalls(n);
    if n > 0 {
      ProductMonotone(m.trustWeight, if m.trustWeight > 0.0 then 1.0 else 0.0, Power(HOP_DECAY, n));
    }
  }

  // ---- observations ----

  function Observed(m: Metrics, latency: real, ok: bool, now: int): Metrics {
    var samples := m.samples + 1;
    m.(samples := samples, failures := if ok then m.failures else m.failures + 1,
       latencyMs := if samples == 1 then latency else (1.0 - EWMA_ALPHA) * m.latencyMs + EWMA_ALPHA * latency,
       lastSeen := now)
  }

  datatype Observation = Observation(latency: real, ok: bool, now: int)

  function ObserveAll(m: Metrics, os: seq<Observation>): Metrics
    decreases |os|
  {
    if os == [] then m else
    var o := os[|os| - 1];
    Observed(ObserveAll(m, os[..|os| - 1]), o.latency, o.ok, o.now)
  }

  /** The smoothed latency never leaves the range of what was observed, failures never outnumber
      samples, and so the success rate is a rate. */
  lemma {:induction false} SmoothedWithinRange(m: Metrics, os: seq<Observation>, lo: real, hi: real)
    requires m.samples == 0 && m.failures == 0 && os != []
    requires forall o :: o in os ==> lo <= o.latency <= hi
    ensures var r := ObserveAll(m, os);
            lo <= r.latencyMs <= hi && r.failures <= r.samples == |os| && 0.0 <= SuccessRate(r) <= 1.0
    decreases |os|
  {
    var init, last := os[..|os| - 1], os[|os| - 1];
    assert last in os;
    if init != [] {
      SmoothedWithinRange(m, init, lo, hi);
    } else {
      assert ObserveAll(m, init) == m;
    }
    var r := ObserveAll(m, os);
    RateInRange(r.failures, r.samples);
  }

  lemma RateInRange(failures: nat, samples: nat)
    requires failures <= samples && samples > 0
    ensures 0.0 <= 1.0 - (failures as real) / (samples as real) <= 1.0
  {
    var q := (failures as real) / (samples as real);
    assert q * (samples as real) == failures as real;
    assert q >= 0.0;
    assert (1.0 - q) * (samples as real) >= 0.0;
  }

  class PeerMetrics {
    const domain: string
    const hops: int
    const trustWeight: real
    const site: string
    const serverClass: string
    const priceMinor: int
    var latencyMs: real
    var samples: nat
    var failures: nat
    var revoked: bool
    var lastSeen: int

    constructor (domain: string, hops: int, trustWeight: real, site: string, serverClass: string, priceMinor: int)
      ensures Snapshot() == Metrics(domain, hops, trustWeight, site, serverClass, priceMinor, 0.0, 0, 0, false, 0)
    {
      this.domain, this.hops, this.trustWeight := domain, hops, trustWeight;
      this.site, this.serverClass, this.priceMinor := site, serverClass, priceMinor;
      latencyMs, samples, failures, revoked, lastSeen := 0.0, 0, 0, false, 0;
    }

    function Snapshot(): Metrics
      reads this
    {
      Metrics(domain, hops, trustWeight, site, serverClass, priceMinor, latencyMs, samples, failures, revoked, lastSeen)
    }

    method Observe(latency: real, ok: bool, now: int)
      modifies this
      ensures Snapshot() == Observed(old(Snapshot()), latency, ok, now)
    {
      samples := samples + 1;
      if !ok { failures := failures + 1; }
      latencyMs := if samples == 1 then latency else (1.0 - EWMA_ALPHA) * latencyMs + EWMA_ALPHA * latency;
      lastSeen := now;
    }
  }

  // ---- concentration ----

  /** A Counter, in order of first appearance. */
  datatype Tally = Tally(peer: string, n: nat)

  function Count(ts: seq<Tally>, peer: string): seq<Tally> {
    if ts == [] then [Tally(peer, 1)]
    else if ts[0].peer == peer then [Tally(peer, ts[0].n + 1)] + ts[1..]
    else [ts[0]] + Count(ts[1..], peer)
  }

  function Counter(history: seq<string>): seq<Tally>
    decreases |history|
  {
    if history == [] then [] else Count(Counter(history[..|history| - 1]), history[|history| - 1])
  }

  function Sum(ts: seq<Tally>): nat { if ts == [] then 0 else ts[0].n + Sum(ts[1..]) }

  function Squares(ts: seq<Tally>): nat { if ts == [] then 0 else ts[0].n * ts[0].n + Squares(ts[1..]) }

  /** The Herfindahl index: the sum of squared shares. */
  function Hhi(ts: seq<Tally>, total: nat): real
    requires total > 0
  {
    if ts == [] then 0.0
    else Times((ts[0].n as real) / (total as real), (ts[0].n as real) / (total as real)) + Hhi(ts[1..], total)
  }

  /** The first of the greatest counts. */
  function MostCommon(ts: seq<Tally>): (t: Tally)
    requires ts != []
    ensures t in ts && forall u :: u in ts ==> u.n <= t.n
  {
    if |ts| == 1 then ts[0] else
    var t := MostCommon(ts[1..]);
    assert ts == [ts[0]] + ts[1..];
    if ts[0].n >= t.n then ts[0] else t
  }

  datatype Verdict = NoTraffic | WellDistributed | Moderate | Concentrated

  datatype Report = Report(hhi: real, peers: nat, topPeer: Option<Tally>, topShare: real, verdict: Verdict)

  function Concentration(history: seq<string>): Report {
    var ts := Counter(history);
    var total := Sum(ts);
    if total == 0 then Report(0.0, 0, None, 0.0, NoTraffic)
    else
      NonEmptyIfSum(ts);
      var hhi := Hhi(ts, total);
      var top := MostCommon(ts);
      Report(hhi, |ts|, Some(top), (top.n as real) / (total as real),
             if hhi >= 0.5 then Concentrated else if hhi >= 0.25 then Moderate else WellDistributed)
  }

  lemma NonEmptyIfSum(ts: seq<Tally>)
    requires Sum(ts) > 0
    ensures ts != []
  {
  }

  method TallyHistory(history: seq<string>) returns (ts: seq<Tally>)
    ensures ts == Counter(history)
  {
    ts := [];
    var i := 0;
    while i < |history|
      invariant 0 <= i <= |history| && ts == Counter(history[..i])
    {
      assert history[..i + 1][..i] == history[..i];
      ts := Count(ts, history[i]);
      i := i + 1;
    }
    assert history[..|history|] == history;
  }

  ghost predicate DistinctPeers(ts: seq<Tally>) { forall i, j :: 0 <= i < j < |ts| ==> ts[i].peer != ts[j].peer }

  ghost function CountOf(ts: seq<Tally>, peer: string): nat {
    if ts == [] then 0 else if ts[0].peer == peer then ts[0].n else CountOf(ts[1..], peer)
  }

  lemma {:induction false} CountAdds(ts: seq<Tally>, peer: string)
    ensures var r := Count(ts, peer);
            Sum(r) == Sum(ts) + 1 && forall d :: CountOf(r, d) == CountOf(ts, d) + if d == peer then 1 else 0
  {
    if ts != [] && ts[0].peer != peer { CountAdds(ts[1..], peer); }
  }

  lemma {:induction false} CountKeepsDistinct(ts: seq<Tally>, peer: string)
    requires DistinctPeers(ts) && forall t :: t in ts ==> t.n > 0
    ensures var r := Count(ts, peer);
            && DistinctPeers(r) && (forall t :: t in r ==> t.n > 0)
            && forall t :: t in r ==> t.peer == peer || exists u :: u in ts && u.peer == t.peer
  {
    if ts != [] && ts[0].peer != peer { CountKeepsDistinct(ts[1..], peer); }
  }

  /** The counts are the occurrences in the history, one entry a peer, and add up to its length. */
  lemma {:induction false} CounterCounts(history: seq<string>)
    ensures var ts := Counter(history);
            && DistinctPeers(ts) && (forall t :: t in ts ==> t.n > 0) && Sum(ts) == |history|
            && forall d :: CountOf(ts, d) == multiset(history)[d]
    decreases |history|
  {
    if history != [] {
      var init, last := history[..|history| - 1], history[|history| - 1];
      CounterCounts(init);
      CountAdds(Counter(init), last);
      CountKeepsDistinct(Counter(init), last);
      assert history == init + [last];
    }
  }

  lemma SquareGapStep(a: nat, n: nat, q: nat, k: nat, s: nat)
    requires q + k * (n * n) >= 2 * (n * s)
    ensures a * a + q + (k + 1) * (n * n) >= 2 * (n * (a + s))
  {
    var d := a as int - n as int;
    assert d * d >= 0;
    assert d * d == a * a - 2 * (n * a) + n * n;
    assert n * (a + s) == n * a + n * s;
    assert (k + 1) * (n * n) == k * (n * n) + n * n;
  }

  lemma {:induction false} SquareGap(ts: seq<Tally>, n: nat)
    ensures Squares(ts) + |ts| * (n * n) >= 2 * (n * Sum(ts))
  {
    if ts != [] {
      SquareGap(ts[1..], n);
      SquareGapStep(ts[0].n, n, Squares(ts[1..]), |ts| - 1, Sum(ts[1..]));
    }
  }

  /** Sum of counts squared is at most the number of peers times the sum of squares. */
  lemma {:induction false} CauchySchwarz(ts: seq<Tally>)
    ensures Sum(ts) * Sum(ts) <= |ts| * Squares(ts)
  {
    if ts != [] {
      var n, s, q, k := ts[0].n, Sum(ts[1..]), Squares(ts[1..]), |ts[1..]|;
      CauchySchwarz(ts[1..]);
      SquareGap(ts[1..], n);
      CauchyStep(n, s, q, k);
    }
  }

  lemma CauchyStep(n: nat, s: nat, q: nat, k: nat)
    requires s * s <= k * q && q + k * (n * n) >= 2 * (n * s)
    ensures (n + s) * (n + s) <= (k + 1) * (n * n + q)
  {
    assert (n + s) * (n + s) == n * n + 2 * (n * s) + s * s;
    assert (k + 1) * (n * n + q) == k * (n * n) + k * q + n * n + q;
  }

  lemma AtMostStep(a: nat, m: nat, q: nat, s: nat)
    requires a <= m && q <= m * s
    ensures a * a + q <= m * (a + s)
  {
    assert (m - a) * a >= 0;
    assert m * (a + s) == m * a + m * s;
  }

  lemma {:induction false} SquaresAtMost(ts: seq<Tally>, m: nat)
    requires forall t :: t in ts ==> t.n <= m
    ensures Squares(ts) <= m * Sum(ts)
  {
    if ts != [] {
      SquaresAtMost(ts[1..], m);
      assert ts[0] in ts;
      AtMostStep(ts[0].n, m, Squares(ts[1..]), Sum(ts[1..]));
    }
  }

  lemma {:induction false} SquaresAtLeast(ts: seq<Tally>, t: Tally)
    requires t in ts
    ensures t.n * t.n <= Squares(ts)
  {
    if ts[0] != t { SquaresAtLeast(ts[1..], t); }
  }

  lemma ShareSquared(n: nat, total: nat)
    requires total > 0
    ensures var share := (n as real) / (total as real);
            Times(Times(share, share), (total * total) as real) == (n * n) as real
  {
    var s, t := (n as real) / (total as real), total as real;
    assert s * t == n as real;
    assert s * s * (t * t) == (s * t) * (s * t);
    assert (total * total) as real == t * t;
    assert (n * n) as real == (n as real) * (n as real);
  }

  lemma {:induction false} HhiIsSquares(ts: seq<Tally>, total: nat)
    requires total > 0
    ensures Times(Hhi(ts, total), (total * total) as real) == Squares(ts) as real
  {
    if ts == [] {
      assert Times(0.0, (total * total) as real) == 0.0;
    } else {
      HhiStep(ts, total);
    }
  }

  lemma {:induction false} HhiStep(ts: seq<Tally>, total: nat)
    requires total > 0 && ts != []
    ensures Times(Hhi(ts, total), (total * total) as real) == Squares(ts) as real
    decreases ts, 0
  {
    hide Times;
    HhiIsSquares(ts[1..], total);
    var s := (ts[0].n as real) / (total as real);
    Distribute(Times(s, s), Hhi(ts[1..], total), (total * total) as real);
    ShareSquared(ts[0].n, total);
  }

  /** What the index and the verdict say about the traffic: for every nonempty history over n peers,
      1/n <= HHI <= top share, and the top share squared is at most HHI. So "well distributed" means
      at least five peers and none with half of the traffic, and "concentrated" means some peer has
      at least half. */
  lemma VerdictMeansWhatItSays(history: seq<string>)
    requires history != []
    ensures var r := Concentration(history);
            && r.topPeer.Some? && r.peers == |Counter(history)| > 0
            && (forall d :: multiset(history)[d] <= multiset(history)[r.topPeer.value.peer])
            && Times(r.hhi, r.peers as real) >= 1.0
            && Times(r.topShare, r.topShare) <= r.hhi <= r.topShare
            && (r.verdict == WellDistributed ==>
                  r.peers >= 5 && 2 * multiset(history)[r.topPeer.value.peer] < |history|)
            && (r.verdict == Concentrated ==> 2 * multiset(history)[r.topPeer.value.peer] >= |history|)
            && r.verdict != NoTraffic
  {
    hide Times, Hhi, Squares, MostCommon;
    var ts, total := Counter(history), |history|;
    CounterCounts(history);
    NonEmptyIfSum(ts);
    var top := MostCommon(ts);
    TopCount(ts, top);
    CauchySchwarz(ts);
    SquaresAtMost(ts, top.n);
    SquaresAtLeast(ts, top);
    HhiIsSquares(ts, total);
    HhiBounds(Hhi(ts, total), Squares(ts), total, |ts|, top.n);
  }

  lemma {:induction false} CountOfMember(ts: seq<Tally>, t: Tally)
    requires DistinctPeers(ts) && t in ts
    ensures CountOf(ts, t.peer) == t.n
  {
    if ts[0] != t {
      CountOfMember(ts[1..], t);
      var i :| 0 <= i < |ts| && ts[i] == t;
      assert ts[0].peer != ts[i].peer;
    }
  }

  lemma {:induction false} CountOfBound(ts: seq<Tally>, d: string, m: nat)
    requires forall t :: t in ts ==> t.n <= m
    ensures CountOf(ts, d) <= m
  {
    if ts != [] {
      assert ts[0] in ts;
      CountOfBound(ts[1..], d, m);
    }
  }

  lemma TopCount(ts: seq<Tally>, top: Tally)
    requires DistinctPeers(ts) && top in ts && forall t :: t in ts ==> t.n <= top.n
    ensures CountOf(ts, top.peer) == top.n && forall d :: CountOf(ts, d) <= top.n
  {
    CountOfMember(ts, top);
    forall d ensures CountOf(ts, d) <= top.n { CountOfBound(ts, d, top.n); }
  }

  lemma HhiBounds(hhi: real, q: nat, total: nat, k: nat, m: nat)
    requires total > 0 && k > 0 && Times(hhi, (total * total) as real) == q as real
    requires total * total <= k * q && q <= m * total && m * m <= q
    ensures Times(hhi, k as real) >= 1.0
    ensures Times((m as real) / (total as real), (m as real) / (total as real)) <= hhi <= (m as real) / (total as real)
    ensures hhi < 0.25 ==> k >= 5 && 2 * m < total
    ensures hhi >= 0.5 ==> 2 * m >= total
  {
    hide Times;
    var tt := (total * total) as real;
    assert total * total > 0;
    ScaledCompare(hhi, (m as real) / (total as real), q, m, total);
    EvenShare(hhi, q, k, total * total);
    FewPeers(hhi, q, k, m, total);
    ManyPeers(hhi, q, m, total);
  }

  lemma EvenShare(hhi: real, q: nat, k: nat, tt: nat)
    requires tt > 0 && Times(hhi, tt as real) == q as real && tt <= k * q
    ensures Times(hhi, k as real) >= 1.0
  {
    assert hhi * (k as real) * (tt as real) == (q as real) * (k as real);
    assert (q as real) * (k as real) == (k * q) as real;
    assert hhi * (k as real) < 1.0 ==> (1.0 - hhi * (k as real)) * (tt as real) > 0.0;
  }

  lemma ScaledCompare(hhi: real, share: real, q: nat, m: nat, total: nat)
    requires total > 0 && share == (m as real) / (total as real)
    requires Times(hhi, (total * total) as real) == q as real && q <= m * total && m * m <= q
    ensures Times(share, share) <= hhi <= share
  {
    var tt := (total * total) as real;
    ShareSquared(m, total);
    assert Times(Times(share, share), tt) == (m * m) as real;
    LessIfScaledLess(Times(share, share), hhi, tt);
    assert share * (total as real) == m as real;
    assert tt == (total as real) * (total as real);
    assert Times(share, tt) == (m * total) as real by {
      assert share * ((total as real) * (total as real)) == (share * (total as real)) * (total as real);
      assert (m as real) * (total as real) == (m * total) as real;
    }
    LessIfScaledLess(hhi, share, tt);
  }

  lemma LessIfScaledLess(a: real, b: real, c: real)
    requires c > 0.0 && Times(a, c) <= Times(b, c)
    ensures a <= b
  {
    hide Times;
    Scale(b, a, c);
  }

  lemma Scale(a: real, b: real, y: real)
    requires y > 0.0
    ensures a < b ==> Times(a, y) < Times(b, y)
    ensures a >= b ==> Times(a, y) >= Times(b, y)
  {
    hide Times;
    if a < b { ScaleUp(b - a, y); } else { ScaleUp(a - b, y); }
    Distribute(a, b, y);
    Distribute(b, a, y);
  }

  lemma ScaleUp(d: real, y: real)
    requires d >= 0.0 && y > 0.0
    ensures Times(d, y) >= 0.0 && (d > 0.0 ==> Times(d, y) > 0.0)
  {
  }

  lemma HalfAndQuarter(h: real, x: real, y: real)
    requires y > 0.0 && Times(h, y) == x
    ensures h < 0.25 ==> 4.0 * x < y
    ensures h >= 0.5 ==> 2.0 * x >= y
  {
    Scale(h, 0.25, y);
    Scale(h, 0.5, y);
    QuarterAndHalfOf(y);
    hide Times;
  }

  lemma QuarterAndHalfOf(y: real)
    ensures Times(0.25, y) == y / 4.0 && Times(0.5, y) == y / 2.0
  {
  }

  lemma QuarterScaled(hhi: real, q: nat, tt: nat)
    requires tt > 0 && Times(hhi, tt as real) == q as real
    ensures hhi < 0.25 ==> 4 * q < tt
    ensures hhi >= 0.5 ==> 2 * q >= tt
  {
    hide Times;
    HalfAndQuarter(hhi, q as real, tt as real);
  }

  lemma FewPeers(hhi: real, q: nat, k: nat, m: nat, total: nat)
    requires total > 0 && Times(hhi, (total * total) as real) == q as real
    requires total * total <= k * q && m * m <= q
    ensures hhi < 0.25 ==> k >= 5 && 2 * m < total
  {
    hide Times;
    QuarterScaled(hhi, q, total * total);
    if hhi < 0.25 {
      assert k <= 4 ==> (4 - k) * q >= 0;
      RootsCompare(2 * m, total);
    }
  }

  lemma RootsCompare(a: nat, b: nat)
    requires a * a < b * b
    ensures a < b
  {
    assert a >= b ==> (a - b) * (a + b) >= 0;
  }

  lemma ManyPeers(hhi: real, q: nat, m: nat, total: nat)
    requires total > 0 && Times(hhi, (total * total) as real) == q as real && q <= m * total
    ensures hhi >= 0.5 ==> 2 * m >= total
  {
    hide Times;
    QuarterScaled(hhi, q, total * total);
    assert 2 * m < total ==> (total - 2 * m) * total > 0;
  }
}
