/** The project's one digest (protocol/hashing.py) as an ideal hash: a digest is a
    free term over its preimage, so two digests are equal only when their preimages are.
    Canonical JSON is the JSON value itself, the 64 bytes a tree node hashes are `Cat`,
    and 32 bytes that nobody computed by hashing are `Raw`. */
module Hashing {

  datatype Term =
    // canonical JSON (objects and arrays are right-nested lists)
    | Num(n: int)
    | Flag(b: bool)
    | Str(s: string)
    | Nil
    | Cons(head: Term, tail: Term)
      // 32-byte words and their concatenation
    | Raw(id: nat)
    | Cat(left: Term, right: Term)
    | Keccak(pre: Term)

  const GENESIS := Raw(0)

  function Digest(pre: Term): Term { Keccak(pre) }

  /** A JSON array of strings. */
  function StrList(ss: seq<string>): Term {
    if ss == [] then Nil else Cons(Str(ss[0]), StrList(ss[1..]))
  }

  lemma {:induction false} StrListInjective(a: seq<string>, b: seq<string>)
    requires StrList(a) == StrList(b)
    ensures a == b
  {
    if a != [] && b != [] {
      StrListInjective(a[1..], b[1..]);
      assert a == [a[0]] + a[1..] && b == [b[0]] + b[1..];
    }
  }

  /** A JSON array of digests. */
  function TermList(ts: seq<Term>): Term {
    if ts == [] then Nil else Cons(ts[0], TermList(ts[1..]))
  }

  lemma {:induction false} TermListInjective(a: seq<Term>, b: seq<Term>)
    requires TermList(a) == TermList(b)
    ensures a == b
  {
    if a != [] && b != [] {
      TermListInjective(a[1..], b[1..]);
      assert a == [a[0]] + a[1..] && b == [b[0]] + b[1..];
    }
  }

  // ---- a total order, standing for the order of the hex texts ----

  function Tag(t: Term): nat {
    match t
    case Num(_) => 0
    case Flag(_) => 1
    case Str(_) => 2
    case Nil => 3
    case Cons(_, _) => 4
    case Raw(_) => 5
    case Cat(_, _) => 6
    case Keccak(_) => 7
  }

  predicate StrLeq(a: string, b: string) {
    a == "" || (b != "" && (a[0] < b[0] || (a[0] == b[0] && StrLeq(a[1..], b[1..]))))
  }

  predicate Leq(a: Term, b: Term) {
    if Tag(a) != Tag(b) then Tag(a) < Tag(b) else
    match a
    case Num(n) => n <= b.n
    case Flag(f) => f ==> b.b
    case Str(s) => StrLeq(s, b.s)
    case Nil => true
    case Cons(h, t) => if h == b.head then Leq(t, b.tail) else Leq(h, b.head)
    case Raw(n) => n <= b.id
    case Cat(l, r) => if l == b.left then Leq(r, b.right) else Leq(l, b.left)
    case Keccak(p) => Leq(p, b.pre)
  }

  lemma {:induction false} StrLeqOrder(a: string, b: string, c: string)
    ensures StrLeq(a, b) || StrLeq(b, a)
    ensures StrLeq(a, b) && StrLeq(b, a) ==> a == b
    ensures StrLeq(a, b) && StrLeq(b, c) ==> StrLeq(a, c)
    decreases |a| + |b| + |c|
  {
    if a != "" && b != "" {
      StrLeqOrder(a[1..], b[1..], if c == "" then c else c[1..]);
      assert a == [a[0]] + a[1..] && b == [b[0]] + b[1..];
    }
  }

  /** `Leq` is total. */
  lemma {:induction false} LeqTotal(a: Term, b: Term)
    ensures Leq(a, b) || Leq(b, a)
  {
    if Tag(a) == Tag(b) {
      match a
      case Str(s) => StrLeqOrder(s, b.s, s);
      case Cons(h, t) => LeqTotal(h, b.head); LeqTotal(t, b.tail);
      case Cat(l, r) => LeqTotal(l, b.left); LeqTotal(r, b.right);
      case Keccak(p) => LeqTotal(p, b.pre);
      case _ =>
    }
  }

  lemma {:induction false} LeqAntisymmetric(a: Term, b: Term)
    requires Leq(a, b) && Leq(b, a)
    ensures a == b
  {
    match a
    case Str(s) => StrLeqOrder(s, b.s, s);
    case Cons(h, t) =>
      if h == b.head { LeqAntisymmetric(t, b.tail); } else { LeqAntisymmetric(h, b.head); }
    case Cat(l, r) =>
      if l == b.left { LeqAntisymmetric(r, b.right); } else { LeqAntisymmetric(l, b.left); }
    case Keccak(p) => LeqAntisymmetric(p, b.pre);
    case _ =>
  }

  lemma {:induction false} LeqTransitive(a: Term, b: Term, c: Term)
    requires Leq(a, b) && Leq(b, c)
    ensures Leq(a, c)
  {
    if Tag(a) == Tag(b) == Tag(c) {
      match a
      case Str(s) => StrLeqOrder(s, b.s, c.s);
      case Cons(h, t) =>
        if h == b.head == c.head {
          LeqTransitive(t, b.tail, c.tail);
        } else if h != b.head && b.head != c.head {
          LeqTransitive(h, b.head, c.head);
          if h == c.head { LeqAntisymmetric(h, b.head); }
        }
      case Cat(l, r) =>
        if l == b.left == c.left {
          LeqTransitive(r, b.right, c.right);
        } else if l != b.left && b.left != c.left {
          LeqTransitive(l, b.left, c.left);
          if l == c.left { LeqAntisymmetric(l, b.left); }
        }
      case Keccak(p) => LeqTransitive(p, b.pre, c.pre);
      case _ =>
    }
  }

  // ---- sorted(): insertion into an ordered list ----

  ghost predicate Ordered(ws: seq<Term>) {
    forall i, j :: 0 <= i < j < |ws| ==> Leq(ws[i], ws[j])
  }

  function Insert(w: Term, ws: seq<Term>): seq<Term> {
    if ws == [] then [w]
    else if Leq(w, ws[0]) then [w] + ws
    else [ws[0]] + Insert(w, ws[1..])
  }

  function Sorted(ws: seq<Term>): seq<Term> {
    if ws == [] then [] else Insert(ws[0], Sorted(ws[1..]))
  }

  lemma {:induction false} InsertContents(w: Term, ws: seq<Term>)
    ensures multiset(Insert(w, ws)) == multiset(ws) + multiset{w}
  {
    hide Leq;
    if ws != [] && !Leq(w, ws[0]) {
      InsertContents(w, ws[1..]);
      assert ws == [ws[0]] + ws[1..];
    }
  }

  lemma {:induction false} InsertKeepsOrder(w: Term, ws: seq<Term>)
    requires Ordered(ws)
    ensures Ordered(Insert(w, ws))
  {
    hide Leq;
    if ws == [] {
    } else if Leq(w, ws[0]) {
      forall j | 0 <= j < |ws| ensures Leq(w, ws[j]) {
        if j > 0 { LeqTransitive(w, ws[0], ws[j]); }
      }
    } else {
      InsertKeepsOrder(w, ws[1..]);
      LeqTotal(w, ws[0]);
      InsertContents(w, ws[1..]);
      var rest := Insert(w, ws[1..]);
      forall j | 0 <= j < |rest| ensures Leq(ws[0], rest[j]) {
        assert rest[j] in multiset(rest);
        assert rest[j] == w || rest[j] in ws[1..];
      }
    }
  }

  /** `Sorted` orders its input and keeps every occurrence. */
  lemma {:induction false} SortedSorts(ws: seq<Term>)
    ensures Ordered(Sorted(ws)) && multiset(Sorted(ws)) == multiset(ws) && |Sorted(ws)| == |ws|
  {
    hide Leq, Insert;
    if ws != [] {
      SortedSorts(ws[1..]);
      InsertKeepsOrder(ws[0], Sorted(ws[1..]));
      InsertContents(ws[0], Sorted(ws[1..]));
      assert ws == [ws[0]] + ws[1..];
    }
    assert |multiset(Sorted(ws))| == |multiset(ws)|;
  }

  lemma OrderedHead(a: seq<Term>, b: seq<Term>)
    requires Ordered(a) && Ordered(b) && a != [] && b != [] && a[0] in b && b[0] in a
    ensures a[0] == b[0]
  {
    var i :| 0 <= i < |b| && b[i] == a[0];
    var j :| 0 <= j < |a| && a[j] == b[0];
    if i != 0 && j != 0 { LeqAntisymmetric(a[0], b[0]); }
  }

  lemma TailContents(a: seq<Term>)
    requires a != []
    ensures multiset(a[1..]) == multiset(a) - multiset{a[0]}
  {
    assert a == [a[0]] + a[1..];
  }

  /** Two ordered lists with the same contents are the same list. */
  lemma {:induction false} OrderedUnique(a: seq<Term>, b: seq<Term>)
    requires Ordered(a) && Ordered(b) && multiset(a) == multiset(b)
    ensures a == b
  {
    hide Leq;
    assert |multiset(a)| == |multiset(b)|;
    if a != [] {
      assert a[0] in multiset(b) && b[0] in multiset(a);
      OrderedHead(a, b);
      TailContents(a);
      TailContents(b);
      OrderedUnique(a[1..], b[1..]);
      assert a == [a[0]] + a[1..] && b == [b[0]] + b[1..];
    }
  }

  /** The sorted list depends only on the contents. */
  lemma SortedCanonical(a: seq<Term>, b: seq<Term>)
    requires multiset(a) == multiset(b)
    ensures Sorted(a) == Sorted(b)
  {
    SortedSorts(a);
    SortedSorts(b);
    OrderedUnique(Sorted(a), Sorted(b));
  }
}
