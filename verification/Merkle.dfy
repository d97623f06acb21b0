/** The sorted-pair Merkle tree that billing (federation/transport.py) and membership
    (federation/cluster.py) each implement: what a root and a proof are, and what they
    prove. An odd node is promoted to the next level unchanged. */
module Merkle {
  import opened Hashing

  function Pair(a: Term, b: Term): Term {
    if Leq(a, b) then Digest(Cat(a, b)) else Digest(Cat(b, a))
  }

  predicate IsPair(t: Term) { t.Keccak? && t.pre.Cat? }

  lemma PairSymmetric(a: Term, b: Term)
    ensures Pair(a, b) == Pair(b, a)
  {
    LeqTotal(a, b);
    if Leq(a, b) && Leq(b, a) { LeqAntisymmetric(a, b); }
  }

  /** The level above `level`. */
  function Above(level: seq<Term>): (up: seq<Term>)
    ensures |up| == (|level| + 1) / 2
  {
    if |level| < 2 then level else [Pair(level[0], level[1])] + Above(level[2..])
  }

  function Root(level: seq<Term>): Term
    requires level != []
    decreases |level|
  {
    if |level| == 1 then level[0] else Root(Above(level))
  }

  function Sibling(idx: nat): nat { if idx % 2 == 0 then idx + 1 else idx - 1 }

  function Path(level: seq<Term>, idx: nat): seq<Term>
    requires idx < |level|
    decreases |level|
  {
    if |level| == 1 then [] else
    (if Sibling(idx) < |level| then [level[Sibling(idx)]] else []) + Path(Above(level), idx / 2)
  }

  /** What a verifier computes from a leaf and a proof. */
  function Climb(h: Term, proof: seq<Term>): Term
    decreases |proof|
  {
    if proof == [] then h else Climb(Pair(h, proof[0]), proof[1..])
  }

  function IndexOf(t: Term, ws: seq<Term>): (i: nat)
    requires t in ws
    ensures i < |ws| && ws[i] == t && t !in ws[..i]
  {
    if ws[0] == t then 0 else 1 + IndexOf(t, ws[1..])
  }

  function MerkleRoot(leaves: seq<Term>): Term {
    SortedSorts(leaves);
    if leaves == [] then GENESIS else Root(Sorted(leaves))
  }

  function MerkleProof(leaves: seq<Term>, target: Term): seq<Term>
    requires target in leaves
  {
    SortedMember(leaves, target);
    Path(Sorted(leaves), IndexOf(target, Sorted(leaves)))
  }

  lemma SortedMember(ws: seq<Term>, t: Term)
    ensures t in ws <==> t in Sorted(ws)
  {
    SortedSorts(ws);
    assert t in multiset(ws) <==> t in multiset(Sorted(ws));
  }

  // ---- completeness and size ----

  lemma {:induction false} AboveAt(level: seq<Term>, idx: nat)
    requires idx < |level|
    ensures idx / 2 < |Above(level)|
    ensures Above(level)[idx / 2] ==
            if Sibling(idx) < |level| then Pair(level[idx], level[Sibling(idx)]) else level[idx]
    decreases |level|
  {
    if idx < 2 {
      if |level| > 1 { PairSymmetric(level[0], level[1]); }
    } else {
      AboveAt(level[2..], idx - 2);
      assert (idx - 2) / 2 == idx / 2 - 1;
      assert Sibling(idx - 2) == Sibling(idx) - 2;
    }
  }

  lemma ClimbStep(h: Term, p: Term, rest: seq<Term>)
    ensures Climb(h, [p] + rest) == Climb(Pair(h, p), rest)
  {
    assert ([p] + rest)[1..] == rest;
  }

  lemma {:induction false} PathClimbs(level: seq<Term>, idx: nat)
    requires idx < |level|
    ensures Climb(level[idx], Path(level, idx)) == Root(level)
    decreases |level|
  {
    if |level| > 1 {
      AboveAt(level, idx);
      PathClimbs(Above(level), idx / 2);
      var rest := Path(Above(level), idx / 2);
      if Sibling(idx) < |level| {
        ClimbStep(level[idx], level[Sibling(idx)], rest);
      } else {
        assert Path(level, idx) == [] + rest == rest;
      }
    }
  }

  function Pow2(n: nat): nat { if n == 0 then 1 else 2 * Pow2(n - 1) }

  lemma {:induction false} PathShort(level: seq<Term>, idx: nat)
    requires idx < |level|
    ensures Pow2(|Path(level, idx)|) < 2 * |level|
    decreases |level|
  {
    if |level| > 1 {
      var above := Above(level);
      PathShort(above, idx / 2);
      var k := |Path(above, idx / 2)|;
      assert |Path(level, idx)| <= k + 1;
      assert Pow2(k + 1) == 2 * Pow2(k);
      var h := Pow2Even(k);
      HalvingBound(Pow2(k), |level|, h);
    }
  }

  lemma Pow2Even(k: nat) returns (h: nat)
    ensures Pow2(k) == 1 || Pow2(k) == 2 * h
  {
    h := if k > 0 then Pow2(k - 1) else 0;
  }

  /** One level down from n words there are half as many, rounded up; one or an even number below twice
      that is below n. */
  lemma HalvingBound(p: nat, n: nat, h: nat)
    requires n > 1 && p < 2 * ((n + 1) / 2) && (p == 1 || p == 2 * h)
    ensures p < n
  {
    var m := n / 2;
    if n % 2 == 0 { EvenHalf(n, m); } else { OddHalf(n, m); }
  }

  lemma EvenHalf(n: nat, m: nat)
    requires n % 2 == 0 && m == n / 2
    ensures n == 2 * m && (n + 1) / 2 == m
  {
  }

  lemma OddHalf(n: nat, m: nat)
    requires n % 2 == 1 && m == n / 2
    ensures n == 2 * m + 1 && (n + 1) / 2 == m + 1
  {
  }

  /** Every leaf has a proof, it verifies, and it is logarithmic in the number of leaves. */
  lemma ProofComplete(leaves: seq<Term>, target: Term)
    requires target in leaves
    ensures Climb(target, MerkleProof(leaves, target)) == MerkleRoot(leaves)
    ensures Pow2(|MerkleProof(leaves, target)|) < 2 * |leaves|
  {
    SortedSorts(leaves);
    SortedMember(leaves, target);
    PathClimbs(Sorted(leaves), IndexOf(target, Sorted(leaves)));
    PathShort(Sorted(leaves), IndexOf(target, Sorted(leaves)));
  }

  /** The root and every proof depend only on which leaves there are, and how many of each. */
  lemma OrderIrrelevant(a: seq<Term>, b: seq<Term>)
    requires multiset(a) == multiset(b)
    ensures MerkleRoot(a) == MerkleRoot(b)
    ensures forall t :: t in a ==> t in b && MerkleProof(a, t) == MerkleProof(b, t)
  {
    SortedCanonical(a, b);
    assert |multiset(a)| == |multiset(b)|;
    forall t | t in a ensures t in b {
      assert t in multiset(b);
    }
  }

  // ---- binding and soundness ----

  /** The words at the bottom of the tree that `t` is the root of. */
  ghost function Leaves(t: Term): multiset<Term> {
    if IsPair(t) then Leaves(t.pre.left) + Leaves(t.pre.right) else multiset{t}
  }

  ghost function LevelLeaves(level: seq<Term>): multiset<Term> {
    if level == [] then multiset{} else Leaves(level[0]) + LevelLeaves(level[1..])
  }

  lemma {:induction false} AboveKeepsLeaves(level: seq<Term>)
    ensures LevelLeaves(Above(level)) == LevelLeaves(level)
    decreases |level|
  {
    if |level| == 1 {
      assert Above(level) == level;
    } else if |level| > 1 {
      AboveKeepsLeaves(level[2..]);
      assert Above(level)[1..] == Above(level[2..]);
      assert level[1..][1..] == level[2..];
    }
  }

  lemma {:induction false} RootKeepsLeaves(level: seq<Term>)
    requires level != []
    ensures Leaves(Root(level)) == LevelLeaves(level)
    decreases |level|
  {
    if |level| > 1 {
      AboveKeepsLeaves(level);
      RootKeepsLeaves(Above(level));
    }
  }

  ghost predicate Flat(ws: seq<Term>) { forall w :: w in ws ==> !IsPair(w) }

  lemma {:induction false} FlatLeaves(ws: seq<Term>)
    requires Flat(ws)
    ensures LevelLeaves(ws) == multiset(ws)
  {
    if ws != [] {
      FlatLeaves(ws[1..]);
      assert ws == [ws[0]] + ws[1..];
    }
  }

  /** A root over leaves that are not themselves pairs determines those leaves. */
  lemma RootLeaves(leaves: seq<Term>)
    requires leaves != [] && Flat(leaves)
    ensures Leaves(MerkleRoot(leaves)) == multiset(leaves)
  {
    SortedSorts(leaves);
    forall w | w in Sorted(leaves) ensures !IsPair(w) { SortedMember(leaves, w); }
    RootKeepsLeaves(Sorted(leaves));
    FlatLeaves(Sorted(leaves));
  }

  /** Binding: equal roots, equal multisets of leaves. */
  lemma RootBinds(a: seq<Term>, b: seq<Term>)
    requires Flat(a) && Flat(b) && GENESIS !in a && GENESIS !in b
    ensures MerkleRoot(a) == MerkleRoot(b) <==> multiset(a) == multiset(b)
  {
    if a != [] { RootLeaves(a); }
    if b != [] { RootLeaves(b); }
    if MerkleRoot(a) == MerkleRoot(b) {
      if a == [] && b != [] { OnlyGenesis(b); }
      if b == [] && a != [] { OnlyGenesis(a); }
    }
    if multiset(a) == multiset(b) { OrderIrrelevant(a, b); }
  }

  lemma OnlyGenesis(ws: seq<Term>)
    requires ws != [] && Flat(ws) && MerkleRoot(ws) == GENESIS
    ensures GENESIS in ws
  {
    RootLeaves(ws);
    assert GENESIS in multiset(ws);
  }

  /** `h` is the root, or sits somewhere in the tree below it. */
  predicate Within(h: Term, root: Term) {
    h == root || (IsPair(root) && (Within(h, root.pre.left) || Within(h, root.pre.right)))
  }

  lemma {:induction false} ClimbStaysWithin(inner: Term, h: Term, proof: seq<Term>)
    requires Within(inner, h)
    ensures Within(inner, Climb(h, proof))
    decreases |proof|
  {
    if proof != [] { ClimbStaysWithin(inner, Pair(h, proof[0]), proof[1..]); }
  }

  lemma {:induction false} ClimbOneMore(h: Term, proof: seq<Term>, last: Term)
    ensures Climb(h, proof + [last]) == Pair(Climb(h, proof), last)
    decreases |proof|
  {
    if proof != [] {
      ClimbOneMore(Pair(h, proof[0]), proof[1..], last);
      assert (proof + [last])[1..] == proof[1..] + [last];
    }
  }

  /** A tree made by this code: the two halves of every node are in hash order. */
  ghost predicate WellPaired(t: Term) {
    IsPair(t) ==> Leq(t.pre.left, t.pre.right) && WellPaired(t.pre.left) && WellPaired(t.pre.right)
  }

  lemma {:induction false} WithinClimbs(h: Term, root: Term) returns (proof: seq<Term>)
    requires Within(h, root) && WellPaired(root)
    ensures Climb(h, proof) == root
  {
    if h == root {
      proof := [];
    } else if Within(h, root.pre.left) {
      proof := WithinClimbs(h, root.pre.left);
      ClimbOneMore(h, proof, root.pre.right);
      proof := proof + [root.pre.right];
    } else {
      proof := WithinClimbs(h, root.pre.right);
      ClimbOneMore(h, proof, root.pre.left);
      PairSymmetric(root.pre.right, root.pre.left);
      proof := proof + [root.pre.left];
    }
  }

  /** Exactly the words inside the tree have a proof: its leaves, and its inner nodes. */
  lemma ProvableIffWithin(h: Term, root: Term)
    requires WellPaired(root)
    ensures (exists proof :: Climb(h, proof) == root) <==> Within(h, root)
  {
    if Within(h, root) {
      var proof := WithinClimbs(h, root);
    }
    forall proof | Climb(h, proof) == root ensures Within(h, root) {
      ClimbStaysWithin(h, h, proof);
    }
  }

  lemma {:induction false} LeavesWithin(h: Term, root: Term)
    requires !IsPair(h)
    ensures h in Leaves(root) <==> Within(h, root)
  {
    if IsPair(root) {
      LeavesWithin(h, root.pre.left);
      LeavesWithin(h, root.pre.right);
    }
  }

  lemma PairWellPaired(a: Term, b: Term)
    requires WellPaired(a) && WellPaired(b)
    ensures WellPaired(Pair(a, b))
  {
    LeqTotal(a, b);
  }

  lemma {:induction false} RootWellPaired(level: seq<Term>)
    requires level != [] && forall w :: w in level ==> WellPaired(w)
    ensures WellPaired(Root(level))
    decreases |level|
  {
    hide Above, Pair, WellPaired;
    if |level| > 1 {
      forall i | 0 <= i < |Above(level)| ensures WellPaired(Above(level)[i]) {
        AboveAt(level, 2 * i);
        if 2 * i + 1 < |level| { PairWellPaired(level[2 * i], level[2 * i + 1]); }
      }
      RootWellPaired(Above(level));
    }
  }

  /** Soundness: a word that is not a pair has a proof exactly when it is a leaf. */
  lemma ProvableIffLeaf(h: Term, leaves: seq<Term>)
    requires leaves != [] && Flat(leaves) && !IsPair(h)
    ensures (exists proof :: Climb(h, proof) == MerkleRoot(leaves)) <==> h in leaves
  {
    if h in leaves { ProofComplete(leaves, h); }
    forall proof | Climb(h, proof) == MerkleRoot(leaves) ensures h in leaves {
      ProofSound(h, proof, leaves);
    }
  }

  lemma ProofSound(h: Term, proof: seq<Term>, leaves: seq<Term>)
    requires leaves != [] && Flat(leaves) && !IsPair(h)
    requires Climb(h, proof) == MerkleRoot(leaves)
    ensures h in leaves
  {
    ClimbStaysWithin(h, h, proof);
    LeavesWithin(h, MerkleRoot(leaves));
    RootLeaves(leaves);
    assert h in multiset(leaves);
  }

  /** The root of any honest tree is well paired, so its inner nodes are provable too. */
  lemma MerkleRootWellPaired(leaves: seq<Term>)
    requires leaves != [] && Flat(leaves)
    ensures WellPaired(MerkleRoot(leaves))
  {
    SortedSorts(leaves);
    forall w | w in Sorted(leaves) ensures WellPaired(w) { SortedMember(leaves, w); }
    RootWellPaired(Sorted(leaves));
  }
}
