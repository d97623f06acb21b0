/** engine/cascade.py: classifiers asked cheapest first under a shared time budget, behind an
    LRU cache. `clock(i, j)` is the time measured when backend j ran on question i of a call. */
module Cascade {
  import opened Common
  import opened Questions

  datatype Attempt = Answer(verdict: Verdict) | Raised(error: string)

  datatype Backend = Backend(name: string, tier: Tier, typicalMicros: nat, available: bool,
                             attempt: (string, Question) -> Attempt)

  type Clock = (nat, nat) -> nat

  function NonNeg(x: int): nat { if x < 0 then 0 else x }

  function AskBackend(b: Backend, features: string, q: Question, remaining: nat, elapsed: nat): Verdict {
    if !b.available then Abstain(q, b.name + " unavailable", b.tier, 0)
    else if b.typicalMicros > remaining then Abstain(q, b.name + " exceeds the remaining budget", b.tier, 0)
    else match b.attempt(features, q)
      case Raised(e) => Abstain(q, b.name + " raised " + e, b.tier, elapsed)
      case Answer(v) => v.(micros := elapsed)
  }

  predicate Skipped(b: Backend, remaining: nat) { b.available && b.typicalMicros > remaining }

  // ---- cheapest first ----

  function InsertByCost(b: Backend, bs: seq<Backend>): seq<Backend> {
    if bs == [] then [b] else if b.typicalMicros <= bs[0].typicalMicros then [b] + bs
    else [bs[0]] + InsertByCost(b, bs[1..])
  }

  /** A stable sort by typical cost, as the constructor applies it. */
  function SortByCost(bs: seq<Backend>): seq<Backend> {
    if bs == [] then [] else InsertByCost(bs[0], SortByCost(bs[1..]))
  }

  ghost predicate CostOrdered(bs: seq<Backend>) {
    forall i, j :: 0 <= i < j < |bs| ==> bs[i].typicalMicros <= bs[j].typicalMicros
  }

  lemma {:induction false} InsertByCostContents(b: Backend, bs: seq<Backend>)
    ensures multiset(InsertByCost(b, bs)) == multiset(bs) + multiset{b}
  {
    if bs != [] && b.typicalMicros > bs[0].typicalMicros {
      InsertByCostContents(b, bs[1..]);
      assert bs == [bs[0]] + bs[1..];
    }
  }

  lemma {:induction false} InsertByCostKeepsOrder(b: Backend, bs: seq<Backend>)
    requires CostOrdered(bs)
    ensures CostOrdered(InsertByCost(b, bs))
  {
    if bs != [] && b.typicalMicros > bs[0].typicalMicros {
      InsertByCostKeepsOrder(b, bs[1..]);
      InsertByCostContents(b, bs[1..]);
      var rest := InsertByCost(b, bs[1..]);
      forall j | 0 <= j < |rest| ensures bs[0].typicalMicros <= rest[j].typicalMicros {
        assert rest[j] in multiset(rest);
        assert rest[j] == b || rest[j] in bs[1..];
      }
    }
  }

  /** The tiers are tried in ascending order of typical cost, and they are the ones given. */
  lemma {:induction false} SortByCostSorts(bs: seq<Backend>)
    ensures CostOrdered(SortByCost(bs)) && multiset(SortByCost(bs)) == multiset(bs)
  {
    hide InsertByCost;
    if bs != [] {
      SortByCostSorts(bs[1..]);
      InsertByCostContents(bs[0], SortByCost(bs[1..]));
      InsertByCostKeepsOrder(bs[0], SortByCost(bs[1..]));
      assert bs == [bs[0]] + bs[1..];
    }
  }

  // ---- one question over the tiers ----

  /** What trying the tiers gave: the first answer if any, the time spent, why the others did
      not answer, and whether an available tier was passed over for budget. */
  datatype Trial = Trial(verdict: Option<Verdict>, spent: nat, reasons: seq<string>, skipped: bool)

  function Try(bs: seq<Backend>, features: string, q: Question, budget: int, clock: Clock, i: nat, j: nat,
               t: Trial): Trial
    requires j <= |bs|
    decreases |bs| - j
  {
    if j == |bs| then t else
    var remaining := NonNeg(budget - t.spent);
    var v := AskBackend(bs[j], features, q, remaining, clock(i, j));
    var spent := t.spent + NonNeg(v.micros);
    var skipped := t.skipped || Skipped(bs[j], remaining);
    if !v.abstained then Trial(Some(v), spent, t.reasons, skipped)
    else
      var next := Trial(None, spent, t.reasons + [bs[j].name + ": " + v.reason], skipped);
      Try(bs, features, q, budget, clock, i, j + 1, next)
  }

  const START := Trial(None, 0, [], false)

  function Join(reasons: seq<string>): string {
    if reasons == [] then "no backends configured"
    else if |reasons| == 1 then reasons[0]
    else reasons[0] + "; " + Join(reasons[1..])
  }

  function Settled(q: Question, t: Trial): Verdict {
    match t.verdict
    case Some(v) => v
    case None => Abstain(q, Join(t.reasons), NONE_ANSWERED, t.spent)
  }

  // ---- the cache and the counters ----

  datatype Slot = Slot(key: string, verdict: Verdict)

  /** The bytes that are hashed into the key; the hash itself is taken to be injective. */
  function CacheKey(features: string, id: string): string { features + ['\0'] + id }

  function Keys(cache: seq<Slot>): (ks: seq<string>)
    ensures |ks| == |cache| && forall i :: 0 <= i < |cache| ==> ks[i] == cache[i].key
  {
    seq(|cache|, i requires 0 <= i < |cache| => cache[i].key)
  }

  function Find(cache: seq<Slot>, key: string): (r: Option<nat>)
    ensures r.Some? ==> r.value < |cache| && cache[r.value].key == key
    ensures r.None? <==> key !in Keys(cache)
  {
    if cache == [] then None
    else if cache[0].key == key then Some(0)
    else
      assert forall i :: 0 < i < |cache| ==> Keys(cache)[i] == Keys(cache[1..])[i - 1];
      match Find(cache[1..], key) case None => None case Some(i) => Some(i + 1)
  }

  function MoveToEnd(cache: seq<Slot>, i: nat): seq<Slot>
    requires i < |cache|
  {
    cache[..i] + cache[i + 1..] + [cache[i]]
  }

  /** Drop from the front until at most `size` are left. */
  function Evict(cache: seq<Slot>, size: nat): seq<Slot> {
    if |cache| > size then cache[|cache| - size..] else cache
  }

  datatype Stats = Stats(asked: nat, answered: nat, abstained: nat, cacheHits: nat, microsTotal: int,
                         byTier: map<Tier, nat>)

  const NO_STATS := Stats(0, 0, 0, 0, 0, map[])

  function Tally(byTier: map<Tier, nat>, t: Tier): nat { if t in byTier then byTier[t] else 0 }

  function RecordStats(s: Stats, v: Verdict, cached: bool): Stats {
    var t := s.(asked := s.asked + 1, microsTotal := s.microsTotal + v.micros,
                cacheHits := if cached then s.cacheHits + 1 else s.cacheHits);
    if v.abstained then t.(abstained := s.abstained + 1)
    else t.(answered := s.answered + 1, byTier := s.byTier[v.tier := Tally(s.byTier, v.tier) + 1])
  }

  datatype Mind = Mind(cache: seq<Slot>, stats: Stats)

  // ---- one call ----

  /** The state after some questions of a call: what is remembered, the answers so far, the
      budget left, and, for the record, the time spent and whether a tier was skipped. */
  datatype Progress = Progress(mind: Mind, verdicts: seq<Verdict>, budget: int, spent: nat, skipped: bool)

  function FromCache(v: Verdict): Verdict { v.(tier := CACHED, micros := 0) }

  /** A negative cache size makes the eviction loop pop from an empty dict, which raises. */
  function AskOne(bs: seq<Backend>, size: int, features: string, q: Question, clock: Clock, i: nat, p: Progress)
    : Option<Progress>
  {
    var key := CacheKey(features, q.id);
    var found := if size != 0 then Find(p.mind.cache, key) else None;
    match found
    case Some(k) =>
      var hit := FromCache(p.mind.cache[k].verdict);
      Some(p.(mind := Mind(MoveToEnd(p.mind.cache, k), RecordStats(p.mind.stats, hit, true)),
              verdicts := p.verdicts + [hit]))
    case None =>
      if size < 0 then None else
      var t := Try(bs, features, q, p.budget, clock, i, 0, START);
      var v := Settled(q, t);
      var cache := if size != 0 then Evict(p.mind.cache + [Slot(key, v)], size) else p.mind.cache;
      Some(Progress(Mind(cache, RecordStats(p.mind.stats, v, false)), p.verdicts + [v], NonNeg(p.budget - t.spent),
                    p.spent + t.spent, p.skipped || t.skipped))
  }

  function AskFrom(bs: seq<Backend>, size: int, features: string, questions: seq<Question>, clock: Clock, i: nat,
                   p: Progress): Option<Progress>
    requires i <= |questions|
    decreases |questions| - i
  {
    if i == |questions| then Some(p) else
    match AskOne(bs, size, features, questions[i], clock, i, p)
    case None => None
    case Some(next) => AskFrom(bs, size, features, questions, clock, i + 1, next)
  }

  function Ask(bs: seq<Backend>, size: int, mind: Mind, features: string, questions: seq<Question>, budget: int,
               clock: Clock): Option<Progress>
  {
    AskFrom(bs, size, features, questions, clock, 0, Progress(mind, [], budget, 0, false))
  }

  // ---- the budget is never overspent ----

  ghost predicate Punctual(bs: seq<Backend>, clock: Clock) {
    forall i: nat, j: nat :: j < |bs| ==> clock(i, j) <= bs[j].typicalMicros
  }

  lemma {:induction false} TryWithinBudget(bs: seq<Backend>, features: string, q: Question, budget: int, clock: Clock,
                                           i: nat, j: nat, t: Trial)
    requires j <= |bs| && Punctual(bs, clock) && t.spent <= NonNeg(budget)
    ensures t.spent <= Try(bs, features, q, budget, clock, i, j, t).spent <= NonNeg(budget)
    decreases |bs| - j
  {
    if j < |bs| {
      var remaining := NonNeg(budget - t.spent);
      var v := AskBackend(bs[j], features, q, remaining, clock(i, j));
      assert NonNeg(v.micros) <= remaining;
      if v.abstained {
        TryWithinBudget(bs, features, q, budget, clock, i, j + 1,
                        Trial(None, t.spent + NonNeg(v.micros), t.reasons + [bs[j].name + ": " + v.reason],
                              t.skipped || Skipped(bs[j], remaining)));
      }
    }
  }

  lemma {:induction false} AskFromWithinBudget(bs: seq<Backend>, size: int, features: string, questions: seq<Question>,
                                               clock: Clock, i: nat, p: Progress)
    requires i <= |questions| && Punctual(bs, clock)
    ensures var r := AskFrom(bs, size, features, questions, clock, i, p);
            r.Some? ==> p.spent <= r.value.spent <= p.spent + NonNeg(p.budget)
                        && NonNeg(r.value.budget) == NonNeg(p.budget) - (r.value.spent - p.spent)
    decreases |questions| - i
  {
    hide Try, Find, MoveToEnd, Evict, RecordStats, Settled;
    if i < |questions| {
      TryWithinBudget(bs, features, questions[i], p.budget, clock, i, 0, START);
      var next := AskOne(bs, size, features, questions[i], clock, i, p);
      if next.Some? {
        AskFromWithinBudget(bs, size, features, questions, clock, i + 1, next.value);
      }
    }
  }

  /** If no backend runs longer than its typical cost, the time spent over all questions and tiers
      of one call is at most the budget, whatever mix of hits, abstentions and exceptions. */
  lemma BudgetNeverOverspent(bs: seq<Backend>, size: int, mind: Mind, features: string, questions: seq<Question>,
                             budget: int, clock: Clock)
    requires Punctual(bs, clock) && Ask(bs, size, mind, features, questions, budget, clock).Some?
    ensures Ask(bs, size, mind, features, questions, budget, clock).value.spent <= NonNeg(budget)
  {
    AskFromWithinBudget(bs, size, features, questions, clock, 0, Progress(mind, [], budget, 0, false));
  }

  /** A call raises exactly when the cache size is negative and some question misses the cache. */
  lemma {:induction false} RaisesOnlyOnNegativeSize(bs: seq<Backend>, size: int, features: string,
                                                    questions: seq<Question>, clock: Clock, i: nat, p: Progress)
    requires i <= |questions|
    ensures AskFrom(bs, size, features, questions, clock, i, p).None? <==>
            size < 0 && exists k :: i <= k < |questions| && CacheKey(features, questions[k].id) !in Keys(p.mind.cache)
    decreases |questions| - i
  {
    hide Try, Find, Evict, RecordStats, CacheKey, Settled;
    if i < |questions| {
      var next := AskOne(bs, size, features, questions[i], clock, i, p);
      if next.Some? {
        RaisesOnlyOnNegativeSize(bs, size, features, questions, clock, i + 1, next.value);
        if size < 0 {
          MovedSameKeys(p.mind.cache, Find(p.mind.cache, CacheKey(features, questions[i].id)).value);
          assert forall k: string :: k in Keys(next.value.mind.cache) <==> k in Keys(p.mind.cache);
        }
      }
    }
  }

  lemma MovedSameKeys(cache: seq<Slot>, i: nat)
    requires i < |cache|
    ensures forall k: string :: k in Keys(MoveToEnd(cache, i)) <==> k in Keys(cache)
  {
    var moved := MoveToEnd(cache, i);
    forall k: string | k in Keys(cache) ensures k in Keys(moved) {
      var j :| 0 <= j < |cache| && Keys(cache)[j] == k;
      assert Keys(moved)[if j < i then j else if j == i then |cache| - 1 else j - 1] == k;
    }
    forall k: string | k in Keys(moved) ensures k in Keys(cache) {
      var j :| 0 <= j < |moved| && Keys(moved)[j] == k;
      assert Keys(cache)[if j == |cache| - 1 then i else if j < i then j else j + 1] == k;
    }
  }

  // ---- the cache is transparent ----

  predicate Answers(b: Backend, features: string, q: Question) {
    b.available && b.attempt(features, q).Answer? && !b.attempt(features, q).verdict.abstained
  }

  function Excuse(b: Backend, features: string, q: Question): string {
    b.name + ": " + (if !b.available then b.name + " unavailable" else
                     match b.attempt(features, q)
                     case Raised(e) => b.name + " raised " + e
                     case Answer(v) => v.reason)
  }

  /** What the tiers say with no clock and no cache: the first that answers, or every excuse. */
  function Opinion(bs: seq<Backend>, features: string, q: Question, j: nat, excuses: seq<string>): Verdict
    requires j <= |bs|
    decreases |bs| - j
  {
    if j == |bs| then Abstain(q, Join(excuses), NONE_ANSWERED, 0)
    else if Answers(bs[j], features, q) then bs[j].attempt(features, q).verdict
    else Opinion(bs, features, q, j + 1, excuses + [Excuse(bs[j], features, q)])
  }

  function Reference(bs: seq<Backend>, features: string, q: Question): Verdict { Opinion(bs, features, q, 0, []) }

  /** Equal except for which tier is credited and how long it took. */
  ghost predicate Same(v: Verdict, w: Verdict) { v.(tier := w.tier, micros := w.micros) == w }

  /** The reference answer is that of a cheapest tier that answers at all. */
  lemma {:induction false} CheapestAnswers(bs: seq<Backend>, features: string, q: Question, j: nat,
                                           excuses: seq<string>, k: nat)
    requires j <= k < |bs| && CostOrdered(bs) && Answers(bs[k], features, q)
    ensures exists m :: j <= m <= k && Answers(bs[m], features, q) && bs[m].typicalMicros <= bs[k].typicalMicros
                        && Opinion(bs, features, q, j, excuses) == bs[m].attempt(features, q).verdict
    decreases k - j
  {
    if !Answers(bs[j], features, q) {
      CheapestAnswers(bs, features, q, j + 1, excuses + [Excuse(bs[j], features, q)], k);
    }
  }

  lemma {:induction false} TryIsOpinion(bs: seq<Backend>, features: string, q: Question, budget: int, clock: Clock,
                                        i: nat, j: nat, t: Trial)
    requires j <= |bs| && t.verdict.None? && !Try(bs, features, q, budget, clock, i, j, t).skipped
    ensures Same(Settled(q, Try(bs, features, q, budget, clock, i, j, t)), Opinion(bs, features, q, j, t.reasons))
    decreases |bs| - j
  {
    if j < |bs| {
      var remaining := NonNeg(budget - t.spent);
      var v := AskBackend(bs[j], features, q, remaining, clock(i, j));
      var skipped := t.skipped || Skipped(bs[j], remaining);
      var next := Trial(None, t.spent + NonNeg(v.micros), t.reasons + [bs[j].name + ": " + v.reason], skipped);
      if v.abstained { SkipStays(bs, features, q, budget, clock, i, j + 1, next); }
      assert !skipped;
      assert !v.abstained <==> Answers(bs[j], features, q);
      if v.abstained {
        assert bs[j].name + ": " + v.reason == Excuse(bs[j], features, q);
        TryIsOpinion(bs, features, q, budget, clock, i, j + 1, next);
      }
    }
  }

  lemma {:induction false} SkipStays(bs: seq<Backend>, features: string, q: Question, budget: int, clock: Clock,
                                     i: nat, j: nat, t: Trial)
    requires j <= |bs|
    ensures t.skipped ==> Try(bs, features, q, budget, clock, i, j, t).skipped
    decreases |bs| - j
  {
    if j < |bs| {
      var remaining := NonNeg(budget - t.spent);
      var v := AskBackend(bs[j], features, q, remaining, clock(i, j));
      SkipStays(bs, features, q, budget, clock, i, j + 1,
                Trial(None, t.spent + NonNeg(v.micros), t.reasons + [bs[j].name + ": " + v.reason],
                      t.skipped || Skipped(bs[j], remaining)));
    }
  }

  predicate NulFree(s: string) { '\0' !in s }

  /** What the longer features have beyond the shorter moves from one id to the other. */
  ghost predicate Shifted(f: string, id: string, g: string, jd: string) {
    exists m :: g == f + ['\0'] + m && id == m + ['\0'] + jd
  }

  /** Exactly which requests share a key: equal ones, and those a NUL can be read two ways in. */
  lemma SharedKeyIff(f: string, id: string, g: string, jd: string)
    ensures CacheKey(f, id) == CacheKey(g, jd) <==>
            (f == g && id == jd) || Shifted(f, id, g, jd) || Shifted(g, jd, f, id)
  {
    if |f| <= |g| {
      ShorterShares(f, id, g, jd);
    } else {
      ShorterShares(g, jd, f, id);
    }
  }

  lemma ShorterShares(f: string, id: string, g: string, jd: string)
    requires |f| <= |g|
    ensures CacheKey(f, id) == CacheKey(g, jd) <==> (f == g && id == jd) || Shifted(f, id, g, jd)
    ensures !Shifted(g, jd, f, id)
  {
    var k := CacheKey(f, id);
    assert k[..|f|] == f && k[|f|] == '\0' && k[|f| + 1..] == id;
    if k == CacheKey(g, jd) {
      assert k[..|g|] == g && k[|g| + 1..] == jd;
      if |f| == |g| {
        assert f == g && id == jd;
      } else {
        var m := g[|f| + 1..];
        assert g == f + ['\0'] + m;
        assert id == m + ['\0'] + jd;
      }
    }
    if m :| g == f + ['\0'] + m && id == m + ['\0'] + jd {
      assert CacheKey(f, id) == f + ['\0'] + m + ['\0'] + jd == CacheKey(g, jd);
    }
  }

  /** So keys tell apart what was asked as long as the features hold no NUL, which those that
      engine/features.py builds do not, or the ids hold none. */
  lemma CacheKeyInjective(f: string, id: string, g: string, jd: string)
    requires (NulFree(f) && NulFree(g)) || (NulFree(id) && NulFree(jd))
    requires CacheKey(f, id) == CacheKey(g, jd)
    ensures f == g && id == jd
  {
    hide CacheKey;
    SharedKeyIff(f, id, g, jd);
    ShiftHasNul(f, id, g, jd);
    ShiftHasNul(g, jd, f, id);
  }

  lemma ShiftHasNul(f: string, id: string, g: string, jd: string)
    ensures Shifted(f, id, g, jd) ==> !NulFree(g) && !NulFree(id)
  {
    if m :| g == f + ['\0'] + m && id == m + ['\0'] + jd {
      assert g[|f|] == '\0' && id[|m|] == '\0';
    }
  }

  /** With a NUL in the features two different requests share a key. */
  lemma CacheKeyCollides()
    ensures CacheKey(['a', '\0', 'b'], ['c']) == CacheKey(['a'], ['b', '\0', 'c'])
  {
    assert CacheKey(['a', '\0', 'b'], ['c']) == ['a', '\0', 'b', '\0', 'c'] == CacheKey(['a'], ['b', '\0', 'c']);
  }

  /** `catalogue` is what makes an id stand for one question. */
  ghost predicate Listed(catalogue: map<string, Question>, q: Question) { q.id in catalogue && catalogue[q.id] == q }

  /** Under this catalogue, nothing else shares a key with these features. */
  ghost predicate Separable(catalogue: map<string, Question>, features: string) {
    NulFree(features) || forall id :: id in catalogue ==> NulFree(id)
  }

  ghost predicate Faithful(bs: seq<Backend>, catalogue: map<string, Question>, s: Slot) {
    exists f, id :: && Separable(catalogue, f) && id in catalogue && s.key == CacheKey(f, id)
                    && Same(s.verdict, Reference(bs, f, catalogue[id]))
  }

  ghost predicate FaithfulCache(bs: seq<Backend>, catalogue: map<string, Question>, cache: seq<Slot>) {
    forall s :: s in cache ==> Faithful(bs, catalogue, s)
  }

  lemma AskOneFaithful(bs: seq<Backend>, size: int, catalogue: map<string, Question>, features: string, q: Question,
                       clock: Clock, i: nat, p: Progress)
    requires FaithfulCache(bs, catalogue, p.mind.cache) && Separable(catalogue, features) && Listed(catalogue, q)
    requires var r := AskOne(bs, size, features, q, clock, i, p); r.Some? && !r.value.skipped
    ensures var r := AskOne(bs, size, features, q, clock, i, p).value;
            && FaithfulCache(bs, catalogue, r.mind.cache)
            && |r.verdicts| == |p.verdicts| + 1 && r.verdicts[..|p.verdicts|] == p.verdicts
            && Same(r.verdicts[|p.verdicts|], Reference(bs, features, q))
  {
    hide RecordStats, CacheKey, Try, Opinion, Reference, NulFree;
    var key := CacheKey(features, q.id);
    var found := if size != 0 then Find(p.mind.cache, key) else None;
    if found.Some? {
      var s := p.mind.cache[found.value];
      assert s in p.mind.cache;
      var f, id :| && Separable(catalogue, f) && id in catalogue && s.key == CacheKey(f, id)
                   && Same(s.verdict, Reference(bs, f, catalogue[id]));
      CacheKeyInjective(features, q.id, f, id);
    } else {
      FreshIsReference(bs, features, q, p.budget, clock, i);
      var v := Settled(q, Try(bs, features, q, p.budget, clock, i, 0, START));
      assert Faithful(bs, catalogue, Slot(key, v)) by {
        assert && Separable(catalogue, features) && q.id in catalogue && key == CacheKey(features, q.id)
               && Same(v, Reference(bs, features, catalogue[q.id]));
      }
    }
  }

  lemma FreshIsReference(bs: seq<Backend>, features: string, q: Question, budget: int, clock: Clock, i: nat)
    ensures !Try(bs, features, q, budget, clock, i, 0, START).skipped ==>
              Same(Settled(q, Try(bs, features, q, budget, clock, i, 0, START)), Reference(bs, features, q))
  {
    if !Try(bs, features, q, budget, clock, i, 0, START).skipped {
      TryIsOpinion(bs, features, q, budget, clock, i, 0, START);
    }
  }

  ghost predicate AnsweredAs(bs: seq<Backend>, features: string, questions: seq<Question>, verdicts: seq<Verdict>) {
    && |verdicts| <= |questions|
    && forall k :: 0 <= k < |verdicts| ==> Same(verdicts[k], Reference(bs, features, questions[k]))
  }

  lemma {:induction false} AskFromFaithful(bs: seq<Backend>, size: int, catalogue: map<string, Question>,
                                           features: string,
                                           questions: seq<Question>, clock: Clock, i: nat, p: Progress)
    requires i <= |questions| && |p.verdicts| == i && AnsweredAs(bs, features, questions, p.verdicts)
    requires FaithfulCache(bs, catalogue, p.mind.cache) && Separable(catalogue, features)
    requires forall q :: q in questions ==> Listed(catalogue, q)
    requires var r := AskFrom(bs, size, features, questions, clock, i, p); r.Some? && !r.value.skipped
    ensures var r := AskFrom(bs, size, features, questions, clock, i, p).value;
            && FaithfulCache(bs, catalogue, r.mind.cache)
            && |r.verdicts| == |questions| && AnsweredAs(bs, features, questions, r.verdicts)
    decreases |questions| - i
  {
    hide AskOne, FaithfulCache, Reference, Separable;
    if i < |questions| {
      var next := AskOne(bs, size, features, questions[i], clock, i, p).value;
      ProgressSkipStays(bs, size, features, questions, clock, i + 1, next);
      assert questions[i] in questions;
      AskOneFaithful(bs, size, catalogue, features, questions[i], clock, i, p);
      AskFromFaithful(bs, size, catalogue, features, questions, clock, i + 1, next);
    }
  }

  lemma {:induction false} ProgressSkipStays(bs: seq<Backend>, size: int, features: string, questions: seq<Question>,
                                             clock: Clock, i: nat, p: Progress)
    requires i <= |questions|
    ensures var r := AskFrom(bs, size, features, questions, clock, i, p); r.Some? && p.skipped ==> r.value.skipped
    decreases |questions| - i
  {
    hide Try, Find, MoveToEnd, Evict, RecordStats, Settled;
    if i < |questions| {
      var next := AskOne(bs, size, features, questions[i], clock, i, p);
      if next.Some? { ProgressSkipStays(bs, size, features, questions, clock, i + 1, next.value); }
    }
  }

  /** One `ask` call. */
  datatype Request = Request(features: string, questions: seq<Question>, budget: int, clock: Clock)

  ghost predicate Proper(catalogue: map<string, Question>, r: Request) {
    Separable(catalogue, r.features) && forall q :: q in r.questions ==> Listed(catalogue, q)
  }

  /** Any sequence of calls, and whether each one raised or skipped a tier. */
  datatype Session = Session(mind: Mind, replies: seq<seq<Verdict>>, clean: bool)

  function RunCalls(bs: seq<Backend>, size: int, rs: seq<Request>): Session
    decreases |rs|
  {
    if rs == [] then Session(Mind([], NO_STATS), [], true) else
    var s := RunCalls(bs, size, rs[..|rs| - 1]);
    var r := rs[|rs| - 1];
    match Ask(bs, size, s.mind, r.features, r.questions, r.budget, r.clock)
    case None => Session(s.mind, s.replies + [[]], false)
    case Some(p) => Session(p.mind, s.replies + [p.verdicts], s.clean && !p.skipped)
  }

  lemma {:induction false} SessionFaithful(bs: seq<Backend>, size: int, catalogue: map<string, Question>,
                                           rs: seq<Request>)
    requires (forall r :: r in rs ==> Proper(catalogue, r)) && RunCalls(bs, size, rs).clean
    ensures FaithfulCache(bs, catalogue, RunCalls(bs, size, rs).mind.cache) && |RunCalls(bs, size, rs).replies| == |rs|
    ensures forall c :: 0 <= c < |rs| ==>
              && |RunCalls(bs, size, rs).replies[c]| == |rs[c].questions|
              && AnsweredAs(bs, rs[c].features, rs[c].questions, RunCalls(bs, size, rs).replies[c])
    decreases |rs|
  {
    hide AskFrom, AnsweredAs, Separable, Faithful;
    if rs != [] {
      var init, r := rs[..|rs| - 1], rs[|rs| - 1];
      assert r in rs;
      SessionFaithful(bs, size, catalogue, init);
      NothingYet(bs, r.features, r.questions);
      AskFromFaithful(bs, size, catalogue, r.features, r.questions, r.clock, 0,
                      Progress(RunCalls(bs, size, init).mind, [], r.budget, 0, false));
    }
  }

  lemma NothingYet(bs: seq<Backend>, features: string, questions: seq<Question>)
    ensures AnsweredAs(bs, features, questions, [])
  {
  }

  /** Transparency: over any sequence of calls in which no tier was skipped for budget, the cascade
      with a cache of any size gives the same answers, probabilities, abstentions and reasons as
      the cascade with none, even on other clocks. */
  lemma CacheIsTransparent(bs: seq<Backend>, size: int, catalogue: map<string, Question>, rs: seq<Request>,
                           us: seq<Request>, c: nat, k: nat)
    requires forall r :: r in rs ==> Proper(catalogue, r)
    requires |us| == |rs|
    requires forall n :: 0 <= n < |rs| ==> us[n].features == rs[n].features && us[n].questions == rs[n].questions
    requires RunCalls(bs, size, rs).clean && RunCalls(bs, 0, us).clean
    requires c < |rs| && k < |rs[c].questions|
    ensures |RunCalls(bs, size, rs).replies| == |RunCalls(bs, 0, us).replies| == |rs|
    ensures |RunCalls(bs, size, rs).replies[c]| == |RunCalls(bs, 0, us).replies[c]| == |rs[c].questions|
    ensures Same(RunCalls(bs, size, rs).replies[c][k], RunCalls(bs, 0, us).replies[c][k])
  {
    hide RunCalls, Reference;
    forall u | u in us ensures Proper(catalogue, u) {
      var n :| 0 <= n < |us| && us[n] == u;
      assert rs[n] in rs;
    }
    SessionFaithful(bs, size, catalogue, rs);
    SessionFaithful(bs, 0, catalogue, us);
  }

  /** Why that condition is there: an abstention forced by budget is remembered, and answers a
      later call that could have paid. */
  lemma BudgetAbstentionSticks(b: Backend, features: string, q: Question, poor: nat, rich: int, clock: Clock)
    requires Answers(b, features, q) && poor < b.typicalMicros
    ensures var first := Ask([b], 1, Mind([], NO_STATS), features, [q], poor, clock);
            && first.Some?
            && var second := Ask([b], 1, first.value.mind, features, [q], rich, clock);
               second.Some? && |second.value.verdicts| == 1 && second.value.verdicts[0].abstained
    ensures !Reference([b], features, q).abstained
  {
    hide Try, RecordStats, CacheKey, Settled;
    LoneTierPassedOver(b, features, q, poor, clock, 0);
    var start := Progress(Mind([], NO_STATS), [], poor, 0, false);
    var one := AskOne([b], 1, features, q, clock, 0, start).value;
    assert AskFrom([b], 1, features, [q], clock, 1, one) == Some(one);
    var v := Settled(q, Try([b], features, q, poor, clock, 0, 0, START));
    assert one.mind.cache == [Slot(CacheKey(features, q.id), v)];
    assert Find(one.mind.cache, CacheKey(features, q.id)) == Some(0);
    var again := Progress(one.mind, [], rich, 0, false);
    var two := AskOne([b], 1, features, q, clock, 0, again).value;
    assert AskFrom([b], 1, features, [q], clock, 1, two) == Some(two);
  }

  // ---- the cache holds the most recently used keys ----

  function Without(ks: seq<string>, k: string): (r: seq<string>)
    ensures forall x :: x in r <==> x in ks && x != k
    ensures k !in ks ==> r == ks
  {
    if ks == [] then [] else (if ks[0] == k then [] else [ks[0]]) + Without(ks[1..], k)
  }

  function Touch(ks: seq<string>, k: string): seq<string> { Without(ks, k) + [k] }

  /** Every key ever asked for, least recently used first. */
  function Recency(history: seq<string>): seq<string>
    decreases |history|
  {
    if history == [] then [] else Touch(Recency(history[..|history| - 1]), history[|history| - 1])
  }

  function Outside(length: nat, n: nat): (off: nat)
    ensures off <= length
  {
    if length > n then length - n else 0
  }

  /** The last `n`, or all when there are fewer. */
  function LastOf(ks: seq<string>, n: nat): seq<string> { ks[Outside(|ks|, n)..] }

  function MoveKey(ks: seq<string>, i: nat): (r: seq<string>)
    requires i < |ks|
    ensures |r| == |ks|
  {
    ks[..i] + ks[i + 1..] + [ks[i]]
  }

  ghost predicate NoRepeats(ks: seq<string>) { forall i, j :: 0 <= i < j < |ks| ==> ks[i] != ks[j] }

  lemma {:induction false} WithoutAt(ks: seq<string>, i: nat)
    requires i < |ks| && NoRepeats(ks)
    ensures Without(ks, ks[i]) == ks[..i] + ks[i + 1..]
  {
    if i == 0 {
      assert ks[0] !in ks[1..];
      assert ks[..0] + ks[1..] == ks[1..];
    } else {
      WithoutAt(ks[1..], i - 1);
      assert [ks[0]] + (ks[1..][..i - 1] + ks[1..][i..]) == ks[..i] + ks[i + 1..];
    }
  }

  lemma TouchAt(ks: seq<string>, i: nat)
    requires i < |ks| && NoRepeats(ks)
    ensures Touch(ks, ks[i]) == MoveKey(ks, i)
  {
    hide Without, NoRepeats;
    WithoutAt(ks, i);
  }

  lemma TouchNoRepeats(ks: seq<string>, k: string)
    requires NoRepeats(ks)
    ensures NoRepeats(Touch(ks, k))
  {
    hide Without, MoveKey;
    if k in ks {
      hide Touch;
      var i :| 0 <= i < |ks| && ks[i] == k;
      TouchAt(ks, i);
      MovedNoRepeats(ks, i);
    }
  }

  lemma MovedNoRepeats(ks: seq<string>, i: nat)
    requires NoRepeats(ks) && i < |ks|
    ensures NoRepeats(MoveKey(ks, i))
  {
    var r := MoveKey(ks, i);
    assert forall j :: 0 <= j < |r| ==> r[j] == ks[if j == |ks| - 1 then i else if j < i then j else j + 1];
  }

  lemma MovedWindow(ks: seq<string>, off: nat, i: nat)
    requires off + i < |ks|
    ensures MoveKey(ks, off + i)[off..] == MoveKey(ks[off..], i)
  {
    var r, w := MoveKey(ks, off + i)[off..], MoveKey(ks[off..], i);
    assert |r| == |w|;
    forall j | 0 <= j < |r| ensures r[j] == w[j] {
      assert r[j] == MoveKey(ks, off + i)[off + j];
    }
  }

  lemma MovedFromOutside(ks: seq<string>, i: nat, off: nat)
    requires i < off < |ks|
    ensures MoveKey(ks, i)[off..] == (ks[off..] + [ks[i]])[1..]
  {
    var r, w := MoveKey(ks, i)[off..], (ks[off..] + [ks[i]])[1..];
    assert |r| == |w|;
    forall j | 0 <= j < |r| ensures r[j] == w[j] {
      assert r[j] == MoveKey(ks, i)[off + j];
    }
  }

  /** A key inside the window moves to its end; the window slides over nothing. */
  lemma TouchInside(ks: seq<string>, n: nat, i: nat)
    requires NoRepeats(ks) && i < |LastOf(ks, n)|
    ensures LastOf(Touch(ks, LastOf(ks, n)[i]), n) == MoveKey(LastOf(ks, n), i)
  {
    hide Touch, NoRepeats, MoveKey;
    var off := Outside(|ks|, n);
    assert LastOf(ks, n)[i] == ks[off + i];
    TouchAt(ks, off + i);
    MovedWindow(ks, off, i);
  }

  lemma InWindow(ks: seq<string>, n: nat)
    ensures forall i :: Outside(|ks|, n) <= i < |ks| ==> ks[i] in LastOf(ks, n)
  {
    forall i | Outside(|ks|, n) <= i < |ks| ensures ks[i] in LastOf(ks, n) {
      assert ks[i] == LastOf(ks, n)[i - Outside(|ks|, n)];
    }
  }

  lemma AppendToWindow(ks: seq<string>, n: nat, k: string)
    requires n > 0
    ensures LastOf(ks + [k], n) == LastOf(LastOf(ks, n) + [k], n)
  {
    var off := Outside(|ks|, n);
    assert (ks + [k])[off..] == ks[off..] + [k];
    assert |ks| >= n ==> (ks + [k])[off + 1..] == (ks[off..] + [k])[1..];
  }

  /** A key outside the window enters at its end and pushes the least recent one out. */
  lemma TouchOutside(ks: seq<string>, n: nat, k: string)
    requires NoRepeats(ks) && n > 0 && k !in LastOf(ks, n)
    ensures LastOf(Touch(ks, k), n) == LastOf(LastOf(ks, n) + [k], n)
  {
    hide Without, NoRepeats, MoveKey;
    AppendToWindow(ks, n, k);
    if k in ks {
      hide Touch;
      var i :| 0 <= i < |ks| && ks[i] == k;
      InWindow(ks, n);
      TouchAt(ks, i);
      TouchedOut(ks, n, i);
    }
  }

  lemma TouchedOut(ks: seq<string>, n: nat, i: nat)
    requires n > 0 && i < Outside(|ks|, n)
    ensures LastOf(MoveKey(ks, i), n) == LastOf(LastOf(ks, n) + [ks[i]], n)
  {
    hide MoveKey;
    MovedFromOutside(ks, i, |ks| - n);
  }

  lemma KeysMoved(cache: seq<Slot>, i: nat)
    requires i < |cache|
    ensures Keys(MoveToEnd(cache, i)) == MoveKey(Keys(cache), i)
  {
    var r, w := Keys(MoveToEnd(cache, i)), MoveKey(Keys(cache), i);
    assert |r| == |w|;
    forall j | 0 <= j < |r| ensures r[j] == w[j] {
      assert r[j] == MoveToEnd(cache, i)[j].key;
    }
  }

  lemma KeysEvicted(cache: seq<Slot>, s: Slot, size: nat)
    ensures Keys(Evict(cache + [s], size)) == LastOf(Keys(cache) + [s.key], size)
  {
    assert Keys(cache + [s]) == Keys(cache) + [s.key];
    var all := cache + [s];
    var off := Outside(|all|, size);
    assert Evict(all, size) == all[off..];
    assert Keys(all[off..]) == Keys(all)[off..];
  }

  lemma AskOneRecency(bs: seq<Backend>, size: nat, features: string, q: Question, clock: Clock, i: nat, p: Progress,
                      ks: seq<string>)
    requires size > 0 && NoRepeats(ks) && Keys(p.mind.cache) == LastOf(ks, size)
    ensures var r := AskOne(bs, size, features, q, clock, i, p);
            r.Some? && Keys(r.value.mind.cache) == LastOf(Touch(ks, CacheKey(features, q.id)), size)
  {
    hide Try, RecordStats, CacheKey, Touch, Settled, LastOf, NoRepeats, MoveToEnd, MoveKey, Keys, Find, Evict;
    var key, cache := CacheKey(features, q.id), p.mind.cache;
    match Find(cache, key)
    case Some(k) =>
      KeysMoved(cache, k);
      TouchInside(ks, size, k);
    case None =>
      KeysEvicted(cache, Slot(key, Settled(q, Try(bs, features, q, p.budget, clock, i, 0, START))), size);
      TouchOutside(ks, size, key);
  }

  function QuestionKeys(features: string, questions: seq<Question>): (ks: seq<string>)
    ensures |ks| == |questions| && forall i :: 0 <= i < |ks| ==> ks[i] == CacheKey(features, questions[i].id)
  {
    seq(|questions|, i requires 0 <= i < |questions| => CacheKey(features, questions[i].id))
  }

  lemma RecencyStep(history: seq<string>, k: string)
    ensures Recency(history + [k]) == Touch(Recency(history), k)
  {
    assert (history + [k])[..|history|] == history;
  }

  lemma {:induction false} RecencyNoRepeats(history: seq<string>)
    ensures NoRepeats(Recency(history))
    decreases |history|
  {
    if history != [] {
      RecencyNoRepeats(history[..|history| - 1]);
      TouchNoRepeats(Recency(history[..|history| - 1]), history[|history| - 1]);
    }
  }

  lemma {:induction false} AskFromRecency(bs: seq<Backend>, size: nat, features: string, questions: seq<Question>,
                                          clock: Clock, i: nat, p: Progress, history: seq<string>)
    requires size > 0 && i <= |questions| && Keys(p.mind.cache) == LastOf(Recency(history), size)
    ensures var r := AskFrom(bs, size, features, questions, clock, i, p);
            && r.Some?
            && Keys(r.value.mind.cache) == LastOf(Recency(history + QuestionKeys(features, questions)[i..]), size)
    decreases |questions| - i
  {
    hide AskOne, Recency, LastOf, CacheKey;
    var keys := QuestionKeys(features, questions);
    if i == |questions| {
      assert history + keys[i..] == history;
    } else {
      RecencyNoRepeats(history);
      AskOneRecency(bs, size, features, questions[i], clock, i, p, Recency(history));
      RecencyStep(history, keys[i]);
      assert (history + [keys[i]]) + keys[i + 1..] == history + keys[i..];
      AskFromRecency(bs, size, features, questions, clock, i + 1,
                     AskOne(bs, size, features, questions[i], clock, i, p).value, history + [keys[i]]);
    }
  }

  function AllKeys(rs: seq<Request>): seq<string>
    decreases |rs|
  {
    if rs == [] then [] else AllKeys(rs[..|rs| - 1]) + QuestionKeys(rs[|rs| - 1].features, rs[|rs| - 1].questions)
  }

  /** Over any sequence of calls the cache holds, least recently used first, exactly the `size` most
      recently used of all keys asked for: it never exceeds its size, and what it evicts is the
      least recently used. */
  lemma {:induction false} CacheIsLeastRecentlyUsed(bs: seq<Backend>, size: nat, rs: seq<Request>)
    requires size > 0
    ensures Keys(RunCalls(bs, size, rs).mind.cache) == LastOf(Recency(AllKeys(rs)), size)
    ensures |RunCalls(bs, size, rs).mind.cache| <= size
    decreases |rs|
  {
    hide AskFrom, Recency, QuestionKeys;
    if rs == [] {
      RecencyNoRepeats([]);
      EmptyRecency(size);
    } else {
      var init, r := rs[..|rs| - 1], rs[|rs| - 1];
      CacheIsLeastRecentlyUsed(bs, size, init);
      AskFromRecency(bs, size, r.features, r.questions, r.clock, 0,
                     Progress(RunCalls(bs, size, init).mind, [], r.budget, 0, false), AllKeys(init));
      assert QuestionKeys(r.features, r.questions)[0..] == QuestionKeys(r.features, r.questions);
    }
  }

  lemma EmptyRecency(size: nat)
    ensures LastOf(Recency([]), size) == Keys([])
  {
  }

  // ---- what a call needs, so that no tier is skipped ----

  /** What the tiers from j on ask for: every available one up to the first that answers. */
  function Need(bs: seq<Backend>, features: string, q: Question, j: nat): nat
    requires j <= |bs|
    decreases |bs| - j
  {
    if j == |bs| then 0
    else if !bs[j].available then Need(bs, features, q, j + 1)
    else bs[j].typicalMicros + if Answers(bs[j], features, q) then 0 else Need(bs, features, q, j + 1)
  }

  /** What the questions from i on ask for; `ks` are the keys used before them, least recent first, and
      what the cache still holds costs nothing. */
  function NeedAll(bs: seq<Backend>, size: nat, features: string, questions: seq<Question>, i: nat,
                   ks: seq<string>): nat
    requires i <= |questions|
    decreases |questions| - i
  {
    if i == |questions| then 0 else
    var key := CacheKey(features, questions[i].id);
    (if key in LastOf(ks, size) then 0 else Need(bs, features, questions[i], 0))
    + NeedAll(bs, size, features, questions, i + 1, Touch(ks, key))
  }

  ghost predicate Remembers(size: nat, cache: seq<Slot>, ks: seq<string>) {
    NoRepeats(ks) && (size > 0 ==> Keys(cache) == LastOf(ks, size))
  }

  lemma {:induction false} AmpleTry(bs: seq<Backend>, features: string, q: Question, budget: int, clock: Clock, i: nat,
                                    j: nat, t: Trial)
    requires j <= |bs| && Punctual(bs, clock) && t.spent + Need(bs, features, q, j) <= NonNeg(budget)
    ensures Try(bs, features, q, budget, clock, i, j, t).skipped == t.skipped
    ensures Try(bs, features, q, budget, clock, i, j, t).spent <= t.spent + Need(bs, features, q, j)
    decreases |bs| - j
  {
    if j < |bs| {
      var remaining := NonNeg(budget - t.spent);
      var v := AskBackend(bs[j], features, q, remaining, clock(i, j));
      assert !Skipped(bs[j], remaining) && NonNeg(v.micros) <= bs[j].typicalMicros;
      if v.abstained {
        AmpleTry(bs, features, q, budget, clock, i, j + 1,
                 Trial(None, t.spent + NonNeg(v.micros), t.reasons + [bs[j].name + ": " + v.reason],
                       t.skipped || Skipped(bs[j], remaining)));
      }
    }
  }

  /** When every tier takes its typical time, what is spent without skipping is what was needed. */
  lemma {:induction false} TypicalTry(bs: seq<Backend>, features: string, q: Question, budget: int, clock: Clock,
                                      i: nat, j: nat, t: Trial)
    requires j <= |bs| && (forall n: nat, m: nat :: m < |bs| ==> clock(n, m) == bs[m].typicalMicros)
    requires !Try(bs, features, q, budget, clock, i, j, t).skipped
    ensures Try(bs, features, q, budget, clock, i, j, t).spent == t.spent + Need(bs, features, q, j)
    decreases |bs| - j
  {
    if j < |bs| {
      var remaining := NonNeg(budget - t.spent);
      var v := AskBackend(bs[j], features, q, remaining, clock(i, j));
      var next := Trial(None, t.spent + NonNeg(v.micros), t.reasons + [bs[j].name + ": " + v.reason],
                        t.skipped || Skipped(bs[j], remaining));
      if v.abstained { SkipStays(bs, features, q, budget, clock, i, j + 1, next); }
      assert !Skipped(bs[j], remaining);
      if v.abstained { TypicalTry(bs, features, q, budget, clock, i, j + 1, next); }
    }
  }

  lemma AskOneRemembers(bs: seq<Backend>, size: nat, features: string, q: Question, clock: Clock, i: nat, p: Progress,
                        ks: seq<string>)
    requires Remembers(size, p.mind.cache, ks)
    ensures var r, key := AskOne(bs, size, features, q, clock, i, p), CacheKey(features, q.id);
            && r.Some? && Remembers(size, r.value.mind.cache, Touch(ks, key))
            && (key in LastOf(ks, size) ==>
                  r.value.budget == p.budget && r.value.spent == p.spent && r.value.skipped == p.skipped)
            && (key !in LastOf(ks, size) ==>
                  var t := Try(bs, features, q, p.budget, clock, i, 0, START);
                  && r.value.budget == NonNeg(p.budget - t.spent) && r.value.spent == p.spent + t.spent
                  && r.value.skipped == (p.skipped || t.skipped))
  {
    hide Try, RecordStats, CacheKey, Touch, Settled, NoRepeats, MoveToEnd, Keys, Find, Evict;
    TouchNoRepeats(ks, CacheKey(features, q.id));
    if size > 0 {
      hide LastOf;
      AskOneRecency(bs, size, features, q, clock, i, p, ks);
    }
  }

  /** A budget that pays what the questions need skips no tier, from any point of a call on. */
  lemma {:induction false} AmpleBudgetSkipsNothing(bs: seq<Backend>, size: nat, features: string,
                                                   questions: seq<Question>,
                                                   clock: Clock, i: nat, p: Progress, ks: seq<string>)
    requires i <= |questions| && Punctual(bs, clock) && Remembers(size, p.mind.cache, ks)
    requires NeedAll(bs, size, features, questions, i, ks) <= NonNeg(p.budget)
    ensures var r := AskFrom(bs, size, features, questions, clock, i, p); r.Some? && r.value.skipped == p.skipped
    decreases |questions| - i
  {
    hide Try, AskOne, LastOf, Touch, CacheKey, Punctual, Need, Remembers;
    if i < |questions| {
      var key := CacheKey(features, questions[i].id);
      AskOneRemembers(bs, size, features, questions[i], clock, i, p, ks);
      if key !in LastOf(ks, size) {
        AmpleTry(bs, features, questions[i], p.budget, clock, i, 0, START);
      }
      AmpleBudgetSkipsNothing(bs, size, features, questions, clock, i + 1,
                              AskOne(bs, size, features, questions[i], clock, i, p).value, Touch(ks, key));
    }
  }

  lemma {:induction false} TypicalSpendsNeed(bs: seq<Backend>, size: nat, features: string, questions: seq<Question>,
                                             clock: Clock, i: nat, p: Progress, ks: seq<string>)
    requires i <= |questions| && Remembers(size, p.mind.cache, ks)
    requires forall n: nat, m: nat :: m < |bs| ==> clock(n, m) == bs[m].typicalMicros
    requires var r := AskFrom(bs, size, features, questions, clock, i, p); r.Some? && !r.value.skipped
    ensures AskFrom(bs, size, features, questions, clock, i, p).value.spent ==
            p.spent + NeedAll(bs, size, features, questions, i, ks)
    decreases |questions| - i
  {
    hide Try, AskOne, LastOf, Touch, CacheKey, Need, Remembers;
    if i < |questions| {
      var key := CacheKey(features, questions[i].id);
      var next := AskOne(bs, size, features, questions[i], clock, i, p).value;
      AskOneRemembers(bs, size, features, questions[i], clock, i, p, ks);
      ProgressSkipStays(bs, size, features, questions, clock, i + 1, next);
      if key !in LastOf(ks, size) {
        TypicalTry(bs, features, questions[i], p.budget, clock, i, 0, START);
      }
      TypicalSpendsNeed(bs, size, features, questions, clock, i + 1, next, Touch(ks, key));
    }
  }

  lemma SessionRemembers(bs: seq<Backend>, size: nat, rs: seq<Request>)
    ensures Remembers(size, RunCalls(bs, size, rs).mind.cache, Recency(AllKeys(rs)))
  {
    hide RunCalls, Recency, AllKeys, NoRepeats, LastOf, Keys;
    RecencyNoRepeats(AllKeys(rs));
    if size > 0 { CacheIsLeastRecentlyUsed(bs, size, rs); }
  }

  /** Exactly which budgets suffice: after any calls, with a cache of any size or none, no punctual
      clock makes a call skip a tier exactly when the budget covers what its questions need together,
      each paying for the available tiers up to its first answer unless the cache still holds it. */
  lemma BudgetSufficesIff(bs: seq<Backend>, size: nat, rs: seq<Request>, features: string, questions: seq<Question>,
                          budget: int)
    ensures (forall clock: Clock :: Punctual(bs, clock) ==>
               var r := Ask(bs, size, RunCalls(bs, size, rs).mind, features, questions, budget, clock);
               r.Some? && !r.value.skipped)
            <==> NeedAll(bs, size, features, questions, 0, Recency(AllKeys(rs))) <= NonNeg(budget)
  {
    hide RunCalls, Recency, AllKeys, AskFrom, NeedAll, Remembers;
    var mind, ks := RunCalls(bs, size, rs).mind, Recency(AllKeys(rs));
    var p := Progress(mind, [], budget, 0, false);
    SessionRemembers(bs, size, rs);
    if NeedAll(bs, size, features, questions, 0, ks) <= NonNeg(budget) {
      forall clock: Clock | Punctual(bs, clock)
        ensures var r := Ask(bs, size, mind, features, questions, budget, clock); r.Some? && !r.value.skipped
      {
        AmpleBudgetSkipsNothing(bs, size, features, questions, clock, 0, p, ks);
      }
    } else {
      var typical: Clock := (n: nat, m: nat) => if m < |bs| then bs[m].typicalMicros else 0;
      assert Punctual(bs, typical);
      var r := Ask(bs, size, mind, features, questions, budget, typical);
      if r.Some? && !r.value.skipped {
        TypicalSpendsNeed(bs, size, features, questions, typical, 0, p, ks);
        AskFromWithinBudget(bs, size, features, questions, typical, 0, p);
      }
    }
  }

  lemma LoneTierAnswers(b: Backend, features: string, q: Question, budget: int, clock: Clock, i: nat)
    requires Answers(b, features, q) && b.typicalMicros <= NonNeg(budget)
    ensures var t := Try([b], features, q, budget, clock, i, 0, START);
            t.spent == clock(i, 0) && !Settled(q, t).abstained
  {
  }

  lemma LoneTierPassedOver(b: Backend, features: string, q: Question, budget: int, clock: Clock, i: nat)
    requires Answers(b, features, q) && b.typicalMicros > NonNeg(budget)
    ensures var t := Try([b], features, q, budget, clock, i, 0, START); t.skipped && Settled(q, t).abstained
  {
    var t := Trial(None, 0, [b.name + ": " + AskBackend(b, features, q, NonNeg(budget), clock(i, 0)).reason], true);
    assert Try([b], features, q, budget, clock, i, 1, t) == t;
    assert Try([b], features, q, budget, clock, i, 0, START) == t;
  }

  /** One question starves another: a tier that answers both, a budget that pays it once. The second
      question is refused, although the same call without the first would answer it. */
  lemma EarlierQuestionStarves(b: Backend, features: string, first: Question, second: Question, clock: Clock)
    requires Answers(b, features, first) && Answers(b, features, second)
    requires b.typicalMicros > 0 && forall n: nat :: clock(n, 0) == b.typicalMicros
    ensures var both := Ask([b], 0, Mind([], NO_STATS), features, [first, second], b.typicalMicros, clock);
            && both.Some? && |both.value.verdicts| == 2
            && !both.value.verdicts[0].abstained && both.value.verdicts[1].abstained
    ensures var alone := Ask([b], 0, Mind([], NO_STATS), features, [second], b.typicalMicros, clock);
            alone.Some? && |alone.value.verdicts| == 1 && !alone.value.verdicts[0].abstained
  {
    hide Try, Settled, RecordStats, CacheKey, Answers;
    var budget := b.typicalMicros;
    var start := Progress(Mind([], NO_STATS), [], budget, 0, false);
    LoneTierAnswers(b, features, first, budget, clock, 0);
    LoneTierAnswers(b, features, second, budget, clock, 0);
    LoneTierPassedOver(b, features, second, 0, clock, 1);
    var one := AskOne([b], 0, features, first, clock, 0, start).value;
    var two := AskOne([b], 0, features, second, clock, 1, one).value;
    assert AskFrom([b], 0, features, [first, second], clock, 2, two) == Some(two);
    assert AskFrom([b], 0, features, [first, second], clock, 1, one) == Some(two);
    var only := AskOne([b], 0, features, second, clock, 0, start).value;
    assert AskFrom([b], 0, features, [second], clock, 1, only) == Some(only);
  }

  // ---- the counters add up ----

  ghost predicate Balanced(s: Stats) { s.asked == s.answered + s.abstained && s.cacheHits <= s.asked }

  lemma {:induction false} AskFromCounts(bs: seq<Backend>, size: int, features: string, questions: seq<Question>,
                                         clock: Clock, i: nat, p: Progress)
    requires i <= |questions| && Balanced(p.mind.stats)
    ensures var r := AskFrom(bs, size, features, questions, clock, i, p);
            r.Some? ==> Balanced(r.value.mind.stats) && r.value.mind.stats.asked == p.mind.stats.asked + |questions| - i
    decreases |questions| - i
  {
    hide Try, Find, MoveToEnd, Evict, Settled, Tally;
    if i < |questions| {
      var next := AskOne(bs, size, features, questions[i], clock, i, p);
      if next.Some? { AskFromCounts(bs, size, features, questions, clock, i + 1, next.value); }
    }
  }

  // ---- the cascade object ----

  class CascadeEngine {
    const backends: seq<Backend>
    const cacheSize: int
    const budgetMicros: int
    var cache: seq<Slot>
    var stats: Stats

    constructor (backends: seq<Backend>, cacheSize: int, budgetMicros: int)
      ensures Memory() == Mind([], NO_STATS) && this.backends == SortByCost(backends)
      ensures this.cacheSize == cacheSize && this.budgetMicros == budgetMicros
    {
      this.backends, this.cacheSize, this.budgetMicros := SortByCost(backends), cacheSize, budgetMicros;
      cache, stats := [], NO_STATS;
    }

    function Memory(): Mind
      reads this
    {
      Mind(cache, stats)
    }

    /** The answers, or None when the call raises; then the cache is left empty. */
    method AskAll(features: string, questions: seq<Question>, budgetOverride: Option<int>, clock: Clock)
      returns (answers: Option<seq<Verdict>>)
      modifies this
      ensures var b := if budgetOverride.Some? then budgetOverride.value else budgetMicros;
              var r := Ask(backends, cacheSize, old(Memory()), features, questions, b, clock);
              && (r.Some? <==> answers.Some?)
              && (r.Some? ==> Memory() == r.value.mind && answers.value == r.value.verdicts)
      ensures answers.None? ==> cache == [] && (old(cache) == [] ==> Memory() == old(Memory()))
    {
      hide AskOne;
      var budget := if budgetOverride.Some? then budgetOverride.value else budgetMicros;
      ghost var goal := Ask(backends, cacheSize, Memory(), features, questions, budget, clock);
      var out: seq<Verdict> := [];
      ghost var spentInAll: nat, anySkip := 0, false;
      var i: nat := 0;
      while i < |questions|
        invariant i <= |questions|
        invariant AskFrom(backends, cacheSize, features, questions, clock, i,
                          Progress(Memory(), out, budget, spentInAll, anySkip)) == goal
        invariant cacheSize < 0 && old(cache) == [] ==> Memory() == old(Memory())
      {
        ghost var p := Progress(Memory(), out, budget, spentInAll, anySkip);
        var one := AskQuestion(features, questions[i], budget, clock, i, p);
        if one.None? { return None; }
        var (v, left) := one.value;
        ghost var next := AskOne(backends, cacheSize, features, questions[i], clock, i, p).value;
        out, budget := out + [v], left;
        spentInAll, anySkip := next.spent, next.skipped;
        i := i + 1;
      }
      return Some(out);
    }

    /** The body of the loop over questions: answer from the cache, or from the first tier that
        does not abstain, and remember the answer. */
    method AskQuestion(features: string, q: Question, budget: int, clock: Clock, i: nat, ghost p: Progress)
      returns (r: Option<(Verdict, int)>)
      requires p.mind == Memory() && p.budget == budget
      modifies this
      ensures var n := AskOne(backends, cacheSize, features, q, clock, i, p);
              && (n.Some? <==> r.Some?)
              && (n.Some? ==> && Memory() == n.value.mind && n.value.budget == r.value.1
                              && n.value.verdicts == p.verdicts + [r.value.0])
      ensures r.None? ==> cacheSize < 0 && cache == [] && stats == old(stats)
      ensures r.Some? && cacheSize < 0 ==> old(cache) != []
    {
      hide Try, RecordStats, CacheKey;
      var key := CacheKey(features, q.id);
      if cacheSize != 0 {
        var found := Find(cache, key);
        if found.Some? {
          var hit := FromCache(cache[found.value].verdict);
          cache := MoveToEnd(cache, found.value);
          stats := RecordStats(stats, hit, true);
          return Some((hit, budget));
        }
      }
      var t := TryTiers(features, q, budget, clock, i);
      var verdict := Settled(q, t);
      if cacheSize != 0 {
        cache := cache + [Slot(key, verdict)];
        var ok := EvictOldest();
        if !ok { return None; }
      }
      stats := RecordStats(stats, verdict, false);
      return Some((verdict, NonNeg(budget - t.spent)));
    }

    /** The loop that drops the oldest entries; false is the error of popping from an empty dict. */
    method EvictOldest() returns (ok: bool)
      modifies this`cache
      ensures ok <==> cacheSize >= 0
      ensures cache == if ok then Evict(old(cache), cacheSize) else []
    {
      while |cache| > cacheSize
        invariant cacheSize >= 0 ==> Evict(cache, cacheSize) == Evict(old(cache), cacheSize)
        decreases |cache|
      {
        if cache == [] { return false; }
        cache := cache[1..];
      }
      return true;
    }

    /** The loop over tiers. */
    method TryTiers(features: string, q: Question, budget: int, clock: Clock, i: nat) returns (t: Trial)
      ensures t == Try(backends, features, q, budget, clock, i, 0, START)
    {
      hide AskBackend;
      t := START;
      var j: nat := 0;
      while j < |backends|
        invariant j <= |backends| && t.verdict.None?
        invariant Try(backends, features, q, budget, clock, i, j, t) ==
                  Try(backends, features, q, budget, clock, i, 0, START)
      {
        var b := backends[j];
        var remaining := NonNeg(budget - t.spent);
        var v := AskBackend(b, features, q, remaining, clock(i, j));
        var spent := t.spent + NonNeg(v.micros);
        var skipped := t.skipped || Skipped(b, remaining);
        if !v.abstained {
          return Trial(Some(v), spent, t.reasons, skipped);
        }
        t := Trial(None, spent, t.reasons + [b.name + ": " + v.reason], skipped);
        j := j + 1;
      }
    }
  }
}
