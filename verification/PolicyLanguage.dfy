/** policy/language.py: rules of intent, the decision they give, and the statement form they
    are printed in and read from. */
module PolicyLanguage {
  import opened Common
  import opened Text

  // ---- reversibility and tiers ----

  datatype Reversibility = REVERSIBLE | RECOVERABLE | COSTLY | IRREVERSIBLE

  function Label(r: Reversibility): string {
    match r
    case REVERSIBLE => "reversible"
    case RECOVERABLE => "recoverable"
    case COSTLY => "costly"
    case IRREVERSIBLE => "irreversible"
  }

  /** The class a word names, in any case. */
  function ParseReversibility(s: string): Option<Reversibility> {
    var w := Lower(Strip(s));
    if w == "reversible" then Some(REVERSIBLE)
    else if w == "recoverable" then Some(RECOVERABLE)
    else if w == "costly" then Some(COSTLY)
    else if w == "irreversible" then Some(IRREVERSIBLE)
    else None
  }

  function FloorTier(r: Reversibility): string {
    match r case REVERSIBLE => "A0xH0" case RECOVERABLE => "A1xH1" case COSTLY => "A2xH1" case IRREVERSIBLE => "A2xH2"
  }

  predicate FloorHuman(r: Reversibility) { r == IRREVERSIBLE }

  /** The agent and human ranks of a tier text; (-1, -1) when it is not one. */
  function TierRank(tier: string): (int, int) {
    var t := Strip(tier);
    if |t| == 5 && t[0] == 'A' && '0' <= t[1] <= '2' && t[2] == 'x' && t[3] == 'H' && '0' <= t[4] <= '2'
    then (t[1] as int - '0' as int, t[4] as int - '0' as int)
    else (-1, -1)
  }

  predicate TierMeets(actual: string, required: string) {
    TierRank(actual).0 >= TierRank(required).0 && TierRank(actual).1 >= TierRank(required).1
  }

  // ---- rules ----

  datatype Effect = ALLOW | DENY | REQUIRE_APPROVAL

  datatype Rule = Rule(id: string, subject: string, action: string, effect: Effect, reversibility: Reversibility,
                       maxAmount: Option<int>, currency: string, minTier: string, requiresHuman: bool,
                       domains: seq<string>, note: string)

  function EffectiveMinTier(r: Rule): string {
    var floor := FloorTier(r.reversibility);
    if r.minTier == "" then floor else if TierMeets(r.minTier, floor) then r.minTier else floor
  }

  predicate EffectiveRequiresHuman(r: Rule) { r.requiresHuman || FloorHuman(r.reversibility) }

  predicate MeansAnyone(w: string) {
    w in {"*", "", "any", "anyone", "all", "anyagent", "any_agent", "everyone", "every", "agent"}
  }

  predicate EndsInStar(s: string) { s != "" && s[|s| - 1] == '*' }

  predicate Glob(pattern: string, value: string) {
    if MeansAnyone(Lower(Strip(pattern))) then true
    else if EndsInStar(pattern) then pattern[..|pattern| - 1] <= value
    else pattern == value
  }

  datatype Request = Request(subject: string, action: string, tier: string, amount: Option<int>, currency: string,
                             targetDomain: string, humanApproved: bool)

  predicate Matches(r: Rule, req: Request) { Glob(r.subject, req.subject) && Glob(r.action, req.action) }

  /** What a decision says, apart from its wording and the rule it names. */
  datatype Decision = Decision(allowed: bool, effect: Effect, reversibility: Reversibility, requiresHuman: bool)

  function Specificity(r: Rule): int {
    2 * (if r.action == "*" || r.action == "" then 0 else if EndsInStar(r.action) then 1 else 2)
    + (if r.subject == "*" || r.subject == "" then 0 else 1)
  }

  function Candidates(rules: seq<Rule>, req: Request): (cs: seq<Rule>)
    ensures forall r :: r in cs <==> r in rules && Matches(r, req)
  {
    if rules == [] then [] else (if Matches(rules[0], req) then [rules[0]] else []) + Candidates(rules[1..], req)
  }

  function FirstDeny(cs: seq<Rule>): (r: Option<Rule>)
    ensures r.Some? ==> r.value in cs && r.value.effect == DENY
    ensures r.None? ==> forall c :: c in cs ==> c.effect != DENY
  {
    if cs == [] then None else if cs[0].effect == DENY then Some(cs[0]) else FirstDeny(cs[1..])
  }

  /** The first of the most specific. */
  function MostSpecific(cs: seq<Rule>): (r: Rule)
    requires cs != []
    ensures r in cs && forall c :: c in cs ==> Specificity(c) <= Specificity(r)
  {
    if |cs| == 1 then cs[0] else
    var r := MostSpecific(cs[1..]);
    assert cs == [cs[0]] + cs[1..];
    if Specificity(cs[0]) >= Specificity(r) then cs[0] else r
  }

  predicate WithinAmount(r: Rule, req: Request) {
    r.maxAmount.Some? && req.amount.Some? ==>
      (r.currency == "" || req.currency == "" || r.currency == req.currency) && req.amount.value <= r.maxAmount.value
  }

  predicate WithinDomains(r: Rule, req: Request) {
    r.domains == [] || req.targetDomain == "" || req.targetDomain in r.domains
  }

  function Refuse(r: Rule): Decision { Decision(false, DENY, r.reversibility, EffectiveRequiresHuman(r)) }

  function Apply(r: Rule, req: Request): Decision {
    if !TierMeets(req.tier, EffectiveMinTier(r)) then Refuse(r)
    else if !WithinAmount(r, req) then Refuse(r)
    else if !WithinDomains(r, req) then Refuse(r)
    else if EffectiveRequiresHuman(r) && !req.humanApproved then
      Decision(false, REQUIRE_APPROVAL, r.reversibility, true)
    else Decision(true, ALLOW, r.reversibility, EffectiveRequiresHuman(r))
  }

  function Evaluate(rules: seq<Rule>, req: Request): Decision {
    var cs := Candidates(rules, req);
    if cs == [] then Decision(false, DENY, REVERSIBLE, false)
    else match FirstDeny(cs)
      case Some(r) => Refuse(r)
      case None => Apply(MostSpecific(cs), req)
  }

  lemma TierMeetsTransitive(a: string, b: string, c: string)
    requires TierMeets(a, b) && TierMeets(b, c)
    ensures TierMeets(a, c)
  {
  }

  /** No policy, whatever tiers it writes, allows an act below the floor of its class; and an
      irreversible one is never allowed without human approval. */
  lemma FloorAlwaysHolds(rules: seq<Rule>, req: Request)
    requires Evaluate(rules, req).allowed
    ensures var d := Evaluate(rules, req);
            TierMeets(req.tier, FloorTier(d.reversibility)) && (d.reversibility == IRREVERSIBLE ==> req.humanApproved)
    ensures forall r :: r in rules && Matches(r, req) ==> r.effect != DENY
  {
    hide Matches, Specificity, FirstDeny, WithinAmount, WithinDomains, TierMeets, FloorTier;
    var cs := Candidates(rules, req);
    var r := MostSpecific(cs);
    if r.minTier != "" && TierMeets(r.minTier, FloorTier(r.reversibility)) {
      TierMeetsTransitive(req.tier, r.minTier, FloorTier(r.reversibility));
    }
  }

  /** The rule in force: of the rules that match, the first of those that name action and subject most
      exactly. */
  ghost predicate InForce(rules: seq<Rule>, req: Request, i: int) {
    && 0 <= i < |rules| && Matches(rules[i], req)
    && forall j :: 0 <= j < |rules| && Matches(rules[j], req) ==>
         Specificity(rules[j]) < Specificity(rules[i]) || (Specificity(rules[j]) == Specificity(rules[i]) && i <= j)
  }

  /** Everything a permission asks of a request. A minimum tier counts only where it raises the floor. */
  ghost predicate Permits(r: Rule, req: Request) {
    && TierMeets(req.tier, FloorTier(r.reversibility))
    && (TierMeets(r.minTier, FloorTier(r.reversibility)) ==> TierMeets(req.tier, r.minTier))
    && (r.maxAmount.Some? && req.amount.Some? ==>
          && req.amount.value <= r.maxAmount.value
          && (r.currency != "" && req.currency != "" ==> r.currency == req.currency))
    && (r.domains != [] && req.targetDomain != "" ==> req.targetDomain in r.domains)
    && (r.requiresHuman || r.reversibility == IRREVERSIBLE ==> req.humanApproved)
  }

  lemma {:induction false} MostSpecificInForce(rules: seq<Rule>, req: Request) returns (i: int)
    requires Candidates(rules, req) != []
    ensures InForce(rules, req, i) && rules[i] == MostSpecific(Candidates(rules, req))
  {
    hide Matches, Specificity, InForce, MostSpecific;
    var rest := Candidates(rules[1..], req);
    if rest == [] {
      OnlyHeadMatches(rules, req);
      i := 0;
    } else {
      var k := MostSpecificInForce(rules[1..], req);
      i := HeadOrTail(rules, req, k);
    }
  }

  lemma OnlyHeadMatches(rules: seq<Rule>, req: Request)
    requires rules != [] && Candidates(rules, req) != [] && Candidates(rules[1..], req) == []
    ensures InForce(rules, req, 0) && MostSpecific(Candidates(rules, req)) == rules[0]
  {
    hide Matches, Specificity;
    assert forall j :: 1 <= j < |rules| ==> rules[j] == rules[1..][j - 1];
    assert forall r :: r in rules[1..] ==> !Matches(r, req);
  }

  lemma HeadOrTail(rules: seq<Rule>, req: Request, k: int) returns (i: int)
    requires rules != [] && Candidates(rules[1..], req) != [] && InForce(rules[1..], req, k)
    requires rules[1..][k] == MostSpecific(Candidates(rules[1..], req))
    ensures InForce(rules, req, i) && rules[i] == MostSpecific(Candidates(rules, req))
  {
    hide Matches, Specificity, Candidates;
    CandidatesHead(rules, req);
    i := if Matches(rules[0], req) && Specificity(rules[0]) >= Specificity(rules[k + 1]) then 0 else k + 1;
    assert forall j :: 1 <= j < |rules| ==> rules[j] == rules[1..][j - 1];
  }

  lemma CandidatesHead(rules: seq<Rule>, req: Request)
    requires rules != []
    ensures Matches(rules[0], req) ==> var cs := Candidates(rules, req);
            cs != [] && cs[0] == rules[0] && cs[1..] == Candidates(rules[1..], req)
    ensures !Matches(rules[0], req) ==> Candidates(rules, req) == Candidates(rules[1..], req)
  {
    hide Matches;
    assert [] + Candidates(rules[1..], req) == Candidates(rules[1..], req);
  }

  lemma ApplyIsPermits(r: Rule, req: Request)
    ensures Apply(r, req).allowed <==> Permits(r, req)
  {
    hide TierMeets, FloorTier;
    NoTier(FloorTier(r.reversibility), r.reversibility);
    if TierMeets(r.minTier, FloorTier(r.reversibility)) && TierMeets(req.tier, r.minTier) {
      TierMeetsTransitive(req.tier, r.minTier, FloorTier(r.reversibility));
    }
  }

  lemma NoTier(floor: string, r: Reversibility)
    requires floor == FloorTier(r)
    ensures !TierMeets("", floor)
  {
    assert Strip(floor) == floor;
  }

  /** Exactly what a policy allows: what nothing prohibits and the rule in force permits. */
  lemma AllowedIff(rules: seq<Rule>, req: Request)
    ensures Evaluate(rules, req).allowed <==>
            && (forall r :: r in rules && Matches(r, req) ==> r.effect != DENY)
            && exists i :: InForce(rules, req, i) && Permits(rules[i], req)
  {
    hide Matches, Specificity, Apply, Permits, MostSpecific;
    var cs := Candidates(rules, req);
    if cs != [] {
      var i := MostSpecificInForce(rules, req);
      ApplyIsPermits(rules[i], req);
      assert forall k :: InForce(rules, req, k) ==> k == i;
    } else {
      assert forall i :: 0 <= i < |rules| ==> rules[i] in rules && !Matches(rules[i], req);
    }
  }

  lemma {:induction false} ApprovalPicksNoRule(rules: seq<Rule>, req: Request)
    ensures Candidates(rules, req.(humanApproved := true)) == Candidates(rules, req)
  {
    hide Glob;
    if rules != [] { ApprovalPicksNoRule(rules[1..], req); }
  }

  /** A decision asks for approval exactly when a human's approval is all that is missing. */
  lemma ApprovalIsAllThatIsMissing(rules: seq<Rule>, req: Request)
    ensures Evaluate(rules, req).effect == REQUIRE_APPROVAL <==>
            !Evaluate(rules, req).allowed && Evaluate(rules, req.(humanApproved := true)).allowed
  {
    hide Candidates, FirstDeny, MostSpecific, TierMeets;
    ApprovalPicksNoRule(rules, req);
  }

  lemma {:induction false} CandidatesAppend(rules: seq<Rule>, extra: Rule, req: Request)
    ensures Candidates(rules + [extra], req) == Candidates(rules, req) + if Matches(extra, req) then [extra] else []
  {
    hide Matches;
    if rules == [] {
      assert rules + [extra] == [extra] && [extra][1..] == [];
    } else {
      CandidatesAppend(rules[1..], extra, req);
      var head := if Matches(rules[0], req) then [rules[0]] else [];
      var last := if Matches(extra, req) then [extra] else [];
      assert (rules + [extra])[1..] == rules[1..] + [extra] && (rules + [extra])[0] == rules[0];
      Associative(head, Candidates(rules[1..], req), last);
    }
  }

  lemma Associative(a: seq<Rule>, b: seq<Rule>, c: seq<Rule>)
    ensures a + (b + c) == (a + b) + c
  {
  }

  /** Adding a prohibition at the end of a policy never permits anything new, and prohibits
      everything it matches. */
  lemma ProhibitionOnlyRestricts(rules: seq<Rule>, extra: Rule, req: Request)
    requires extra.effect == DENY
    ensures Evaluate(rules + [extra], req).allowed <==> Evaluate(rules, req).allowed && !Matches(extra, req)
  {
    hide Matches, Apply, MostSpecific;
    CandidatesAppend(rules, extra, req);
    var cs, ds := Candidates(rules, req), Candidates(rules + [extra], req);
    if Matches(extra, req) {
      assert extra in ds;
    } else {
      assert ds == cs;
    }
  }

  // ---- equal up to id, note and the spelling of the modal ----

  /** Everything a decision can depend on; of the effect, whether it prohibits. */
  ghost predicate Similar(r: Rule, s: Rule) {
    && r.subject == s.subject && r.action == s.action && (r.effect == DENY <==> s.effect == DENY)
    && r.reversibility == s.reversibility
    && r.maxAmount == s.maxAmount && r.currency == s.currency && r.minTier == s.minTier && r.domains == s.domains
    && EffectiveRequiresHuman(r) == EffectiveRequiresHuman(s)
  }

  ghost predicate AllSimilar(a: seq<Rule>, b: seq<Rule>) {
    |a| == |b| && forall i :: 0 <= i < |a| ==> Similar(a[i], b[i])
  }

  lemma {:induction false} SimilarCandidates(a: seq<Rule>, b: seq<Rule>, req: Request)
    requires AllSimilar(a, b)
    ensures AllSimilar(Candidates(a, req), Candidates(b, req))
  {
    hide Glob;
    if a != [] { SimilarCandidates(a[1..], b[1..], req); }
  }

  lemma {:induction false} SimilarFirstDeny(a: seq<Rule>, b: seq<Rule>)
    requires AllSimilar(a, b)
    ensures FirstDeny(a).Some? <==> FirstDeny(b).Some?
    ensures FirstDeny(a).Some? ==> Similar(FirstDeny(a).value, FirstDeny(b).value)
  {
    if a != [] { SimilarFirstDeny(a[1..], b[1..]); }
  }

  lemma {:induction false} SimilarMostSpecific(a: seq<Rule>, b: seq<Rule>)
    requires AllSimilar(a, b) && a != []
    ensures Similar(MostSpecific(a), MostSpecific(b))
  {
    hide Specificity, EffectiveRequiresHuman;
    SimilarSpecificity(a[0], b[0]);
    if |a| > 1 {
      SimilarMostSpecific(a[1..], b[1..]);
      SimilarSpecificity(MostSpecific(a[1..]), MostSpecific(b[1..]));
    }
  }

  lemma SimilarSpecificity(r: Rule, s: Rule)
    requires Similar(r, s)
    ensures Specificity(r) == Specificity(s)
  {
  }

  lemma SimilarApply(r: Rule, s: Rule, req: Request)
    requires Similar(r, s)
    ensures Apply(r, req) == Apply(s, req) && Refuse(r) == Refuse(s)
  {
    hide TierMeets, FloorTier, WithinAmount, WithinDomains, EffectiveRequiresHuman;
    SimilarLimits(r, s, req);
  }

  lemma SimilarLimits(r: Rule, s: Rule, req: Request)
    requires Similar(r, s)
    ensures WithinAmount(r, req) == WithinAmount(s, req) && WithinDomains(r, req) == WithinDomains(s, req)
  {
  }

  lemma SimilarDecide(a: seq<Rule>, b: seq<Rule>, req: Request)
    requires AllSimilar(a, b)
    ensures Evaluate(a, req) == Evaluate(b, req)
  {
    hide Candidates, FirstDeny, MostSpecific, Apply, Refuse, Similar;
    SimilarCandidates(a, b, req);
    var cs, ds := Candidates(a, req), Candidates(b, req);
    SimilarFirstDeny(cs, ds);
    if FirstDeny(cs).Some? {
      SimilarApply(FirstDeny(cs).value, FirstDeny(ds).value, req);
    } else if cs != [] {
      SimilarMostSpecific(cs, ds);
      SimilarApply(MostSpecific(cs), MostSpecific(ds), req);
    }
  }

  // ---- a rule written with the effect REQUIRE_APPROVAL ----

  function AsPermission(r: Rule): Rule { if r.effect == REQUIRE_APPROVAL then r.(effect := ALLOW) else r }

  function AsPermissions(rules: seq<Rule>): (r: seq<Rule>)
    ensures |r| == |rules| && forall i :: 0 <= i < |rules| ==> r[i] == AsPermission(rules[i])
  {
    seq(|rules|, i requires 0 <= i < |rules| => AsPermission(rules[i]))
  }

  /** The effect REQUIRE_APPROVAL in a rule is never read: written as a plain permission, every rule of a
      policy decides every request as before. */
  lemma WrittenApprovalIsPermission(rules: seq<Rule>, req: Request)
    ensures Evaluate(AsPermissions(rules), req) == Evaluate(rules, req)
  {
    hide Evaluate;
    SimilarDecide(AsPermissions(rules), rules, req);
  }

  // ---- reading text ----

  predicate IsBreak(c: char) { 10 as char <= c <= 13 as char || 28 as char <= c <= 30 as char }

  function FirstBreak(s: string): (k: nat)
    ensures k <= |s| && (k < |s| ==> IsBreak(s[k])) && forall i :: 0 <= i < k ==> !IsBreak(s[i])
  {
    if s == "" || IsBreak(s[0]) then 0 else 1 + FirstBreak(s[1..])
  }

  /** `str.splitlines`: a carriage return and line feed together end one line. */
  function SplitLines(s: string): seq<string>
    decreases |s|
  {
    if s == "" then [] else
    var k := FirstBreak(s);
    if k == |s| then [s]
    else [s[..k]] + SplitLines(s[if s[k] == '\r' && k + 1 < |s| && s[k + 1] == '\n' then k + 2 else k + 1..])
  }

  function BeforeHash(s: string): string {
    if s == "" || s[0] == '#' then "" else [s[0]] + BeforeHash(s[1..])
  }

  /** A word, and the white space before it. */
  datatype Token = Token(gap: string, word: string)

  function SpaceRun(s: string): (k: nat)
    ensures k <= |s| && (k < |s| ==> !IsSpace(s[k]))
  {
    if s != "" && IsSpace(s[0]) then 1 + SpaceRun(s[1..]) else 0
  }

  function WordRun(s: string): (k: nat)
    ensures k <= |s| && (s != "" && !IsSpace(s[0]) ==> k > 0)
  {
    if s != "" && !IsSpace(s[0]) then 1 + WordRun(s[1..]) else 0
  }

  function Tokens(s: string): seq<Token>
    decreases |s|
  {
    var g := SpaceRun(s);
    var rest := s[g..];
    if rest == "" then [] else
    var k := WordRun(rest);
    [Token(s[..g], rest[..k])] + Tokens(rest[k..])
  }

  predicate IsWordChar(c: char) { 'a' <= c <= 'z' || 'A' <= c <= 'Z' || IsDigit(c) || c == '_' }

  predicate SubjectWord(w: string) {
    w != "" && forall i :: 0 <= i < |w| ==> IsWordChar(w[i]) || w[i] in {'*', '.', '-'}
  }

  predicate ActionWord(w: string) {
    w != "" && forall i :: 0 <= i < |w| ==> IsWordChar(w[i]) || w[i] in {'*', ':', '/', '.', '-'}
  }

  predicate CurrencyWord(w: string) {
    3 <= |w| <= 6 && forall i :: 0 <= i < |w| ==> 'a' <= w[i] <= 'z' || 'A' <= w[i] <= 'Z'
  }

  predicate BracketWord(w: string) {
    |w| >= 3 && w[0] == '[' && w[|w| - 1] == ']' && forall i :: 1 <= i < |w| - 1 ==> IsWordChar(w[i])
  }

  datatype Statement = Statement(subject: string, modal: string, action: string, amount: Option<string>,
                                 currency: string, class_: Option<string>)

  predicate AmountWords(ts: seq<Token>) {
    && |ts| >= 4 && Upper(ts[0].word) == "UP" && Upper(ts[1].word) == "TO"
    && AllDigits(ts[2].word) && CurrencyWord(ts[3].word)
  }

  function Inner(w: string): string
    requires |w| >= 2
  {
    w[1..|w| - 1]
  }

  /** What follows the modal: an action, then optionally an amount, then optionally a class. Every
      part of the pattern is a whole word, so the words decide the match. */
  function MatchTail(subject: string, modal: string, ts: seq<Token>): Option<Statement> {
    if ts == [] || !ActionWord(ts[0].word) then None else
    var action, rest := ts[0].word, ts[1..];
    if rest == [] then Some(Statement(subject, modal, action, None, "", None))
    else if |rest| == 1 && BracketWord(rest[0].word) then
      Some(Statement(subject, modal, action, None, "", Some(Inner(rest[0].word))))
    else if |rest| == 4 && AmountWords(rest) then
      Some(Statement(subject, modal, action, Some(rest[2].word), rest[3].word, None))
    else if |rest| == 5 && AmountWords(rest) && BracketWord(rest[4].word) then
      Some(Statement(subject, modal, action, Some(rest[2].word), rest[3].word, Some(Inner(rest[4].word))))
    else None
  }

  /** The two-word modals, which take exactly one space between their words, are tried first; when
      the rest does not fit, the second word may still be the action. */
  function MatchStatement(ts: seq<Token>): Option<Statement> {
    if |ts| < 2 || !SubjectWord(ts[0].word) then None
    else if !(Upper(ts[1].word) == "MAY" || Upper(ts[1].word) == "MUST") then None else
    var two := if |ts| >= 3 && Upper(ts[2].word) == "NOT" && ts[2].gap == " "
               then MatchTail(ts[0].word, Upper(ts[1].word) + " NOT", ts[3..]) else None;
    if two.Some? then two else MatchTail(ts[0].word, Upper(ts[1].word), ts[2..])
  }

  datatype PolicyError = CannotParse(line: nat) | UnknownClass(line: nat)

  predicate HasNot(modal: string) { modal == "MAY NOT" || modal == "MUST NOT" }

  /** One line: nothing, a rule, or an error. */
  function ParseLine(n: nat, raw: string): Result<Option<Rule>, PolicyError> {
    var line := Strip(BeforeHash(raw));
    if line == "" then Ok(None) else
    match MatchStatement(Tokens(line))
    case None => Err(CannotParse(n))
    case Some(st) =>
      match ParseReversibility(if st.class_.Some? then st.class_.value else "reversible")
      case None => Err(UnknownClass(n))
      case Some(rev) =>
        Ok(Some(Rule("r" + Dec(n), st.subject, st.action, if HasNot(st.modal) then DENY else ALLOW, rev,
                     if st.amount.Some? then AmountOf(st.amount.value) else None, Upper(st.currency), "",
                     st.modal == "MUST", [], line)))
  }

  function AmountOf(digits: string): Option<int> { if AllDigits(digits) then Some(Value(digits)) else None }

  function ParseLines(lines: seq<string>, n: nat): Result<seq<Rule>, PolicyError>
    decreases |lines|
  {
    if lines == [] then Ok([]) else
    match ParseLine(n, lines[0])
    case Err(e) => Err(e)
    case Ok(one) =>
      match ParseLines(lines[1..], n + 1)
      case Err(e) => Err(e)
      case Ok(rest) => Ok(if one.Some? then [one.value] + rest else rest)
  }

  function ParseText(text: string): Result<seq<Rule>, PolicyError> { ParseLines(SplitLines(text), 1) }

  function Prepend(rules: seq<Rule>, rest: Result<seq<Rule>, PolicyError>): Result<seq<Rule>, PolicyError> {
    match rest case Err(e) => Err(e) case Ok(more) => Ok(rules + more)
  }

  method ParsePolicy(text: string) returns (r: Result<seq<Rule>, PolicyError>)
    ensures r == ParseText(text)
  {
    hide ParseLine;
    var lines := SplitLines(text);
    var rules: seq<Rule> := [];
    var i: nat := 0;
    assert ParseText(text).Ok? ==> [] + ParseText(text).value == ParseText(text).value;
    while i < |lines|
      invariant i <= |lines| && Prepend(rules, ParseLines(lines[i..], i + 1)) == ParseText(text)
    {
      assert lines[i..][1..] == lines[i + 1..];
      match ParseLine(i + 1, lines[i])
      case Err(e) => return Err(e);
      case Ok(None) => i := i + 1;
      case Ok(Some(rule)) =>
        ghost var rest := ParseLines(lines[i + 1..], i + 2);
        assert rest.Ok? ==> rules + ([rule] + rest.value) == (rules + [rule]) + rest.value;
        rules := rules + [rule];
        i := i + 1;
    }
    assert rules + [] == rules;
    return Ok(rules);
  }

  // ---- printing ----

  function Modal(r: Rule): string {
    if r.effect == DENY then "MUST NOT" else if EffectiveRequiresHuman(r) then "MUST" else "MAY"
  }

  function AmountText(r: Rule): string {
    match r.maxAmount
    case None => ""
    case Some(n) => " up to " + (if n < 0 then "-" + Dec(-n) else Dec(n)) + " " + r.currency
  }

  function RuleCore(r: Rule): string {
    r.subject + " " + Modal(r) + " " + r.action + AmountText(r) + " [" + Label(r.reversibility) + "]"
  }

  function RuleLine(r: Rule): string { RuleCore(r) + "  # tier >= " + EffectiveMinTier(r) }

  function RuleLines(rules: seq<Rule>): (ls: seq<string>)
    ensures |ls| == |rules| && forall i :: 0 <= i < |rules| ==> ls[i] == RuleLine(rules[i])
  {
    hide RuleLine;
    seq(|rules|, i requires 0 <= i < |rules| => RuleLine(rules[i]))
  }

  function HeaderLines(name: string, version: string, digest: string): seq<string> {
    ["# " + name + " v" + version, "# digest " + digest, "# default: deny", ""]
  }

  function JoinLines(lines: seq<string>): string
    requires lines != []
  {
    if |lines| == 1 then lines[0] else lines[0] + "\n" + JoinLines(lines[1..])
  }

  /** `digest` is the hex digest of the policy document. */
  function Explain(rules: seq<Rule>, name: string, version: string, digest: string): string {
    JoinLines(HeaderLines(name, version, digest) + RuleLines(rules))
  }

  method ExplainPolicy(rules: seq<Rule>, name: string, version: string, digest: string) returns (text: string)
    ensures text == Explain(rules, name, version, digest)
  {
    hide RuleLine, JoinLines;
    var out := HeaderLines(name, version, digest);
    var i := 0;
    while i < |rules|
      invariant 0 <= i <= |rules| && out == HeaderLines(name, version, digest) + RuleLines(rules[..i])
    {
      assert RuleLines(rules[..i + 1]) == RuleLines(rules[..i]) + [RuleLine(rules[i])];
      out := out + [RuleLine(rules[i])];
      i := i + 1;
    }
    assert rules[..|rules|] == rules;
    return JoinLines(out);
  }

  // ---- what parsing can produce ----

  /** A rule `parse_text` can produce. */
  ghost predicate Parsed(r: Rule) {
    && SubjectWord(r.subject) && ActionWord(r.action) && r.effect != REQUIRE_APPROVAL
    && (r.maxAmount.Some? ==> r.maxAmount.value >= 0 && CurrencyWord(r.currency) && Upper(r.currency) == r.currency)
    && (r.maxAmount.None? ==> r.currency == "")
    && r.minTier == "" && r.domains == [] && (r.effect == DENY ==> !r.requiresHuman)
  }

  lemma UpperTwice(s: string)
    ensures Upper(Upper(s)) == Upper(s)
  {
  }

  lemma MatchedIsWellFormed(ts: seq<Token>)
    requires MatchStatement(ts).Some?
    ensures var st := MatchStatement(ts).value;
            && SubjectWord(st.subject) && ActionWord(st.action)
            && (st.amount.Some? ==> AllDigits(st.amount.value) && CurrencyWord(st.currency))
            && (st.amount.None? ==> st.currency == "")
  {
    hide SubjectWord, ActionWord, CurrencyWord, BracketWord, AllDigits, Upper;
  }

  lemma CurrencyUpper(w: string)
    requires CurrencyWord(w)
    ensures CurrencyWord(Upper(w))
  {
  }

  lemma ParsedLine(n: nat, raw: string)
    requires ParseLine(n, raw).Ok? && ParseLine(n, raw).value.Some?
    ensures Parsed(ParseLine(n, raw).value.value)
  {
    hide SubjectWord, ActionWord, CurrencyWord, AllDigits, MatchStatement, Tokens;
    hide Upper, ParseReversibility, Dec, Value;
    var st := MatchStatement(Tokens(Strip(BeforeHash(raw)))).value;
    MatchedIsWellFormed(Tokens(Strip(BeforeHash(raw))));
    UpperTwice(st.currency);
    if st.amount.Some? { CurrencyUpper(st.currency); } else { UpperOfEmpty(); }
  }

  lemma UpperOfEmpty()
    ensures Upper("") == ""
  {
  }

  lemma {:induction false} ParsedLines(lines: seq<string>, n: nat)
    requires ParseLines(lines, n).Ok?
    ensures forall r :: r in ParseLines(lines, n).value ==> Parsed(r)
    decreases |lines|
  {
    hide ParseLine, Parsed;
    if lines != [] {
      ParsedLines(lines[1..], n + 1);
      if ParseLine(n, lines[0]).value.Some? { ParsedLine(n, lines[0]); }
    }
  }

  // ---- reading back what was printed ----

  ghost predicate NoBreaks(s: string) { forall i :: 0 <= i < |s| ==> !IsBreak(s[i]) }

  /** A word of a printed statement. */
  ghost predicate Plain(w: string) { w != "" && forall i :: 0 <= i < |w| ==> !IsSpace(w[i]) && w[i] != '#' }

  lemma FirstBreakOf(a: string, b: string)
    requires NoBreaks(a)
    ensures FirstBreak(a + "\n" + b) == |a|
  {
    var s := a + "\n" + b;
    assert s[|a|] == '\n';
    assert forall i :: 0 <= i < |a| ==> s[i] == a[i];
  }

  lemma SplitOneLine(a: string, b: string)
    requires NoBreaks(a)
    ensures SplitLines(a + "\n" + b) == [a] + SplitLines(b)
  {
    var s := a + "\n" + b;
    FirstBreakOf(a, b);
    assert s[..|a|] == a && s[|a| + 1..] == b;
  }

  lemma {:induction false} ParseJoined(lines: seq<string>, n: nat)
    requires lines != [] && forall l :: l in lines ==> NoBreaks(l)
    ensures ParseLines(SplitLines(JoinLines(lines)), n) == ParseLines(lines, n)
    decreases |lines|
  {
    hide ParseLine, IsBreak;
    assert lines[0] in lines;
    if |lines| == 1 {
      assert lines == [lines[0]];
      if lines[0] == "" { BlankParses(n, ""); } else { SplitLastLine(lines[0]); }
    } else {
      SplitOneLine(lines[0], JoinLines(lines[1..]));
      ParseJoined(lines[1..], n + 1);
    }
  }

  lemma SplitLastLine(a: string)
    requires NoBreaks(a) && a != ""
    ensures SplitLines(a) == [a]
  {
  }

  lemma BlankParses(n: nat, raw: string)
    requires raw == "" || raw[0] == '#'
    ensures ParseLine(n, raw) == Ok(None)
  {
  }

  lemma {:induction false} BeforeHashOf(core: string, rest: string)
    requires forall i :: 0 <= i < |core| ==> core[i] != '#'
    ensures BeforeHash(core + "#" + rest) == core
  {
    if core != "" {
      BeforeHashOf(core[1..], rest);
      assert (core + "#" + rest)[1..] == core[1..] + "#" + rest;
      assert core == [core[0]] + core[1..];
    } else {
      assert (core + "#" + rest)[0] == '#';
    }
  }

  lemma StripPadded(core: string)
    requires core != "" && !IsSpace(core[0]) && !IsSpace(core[|core| - 1])
    ensures Strip(core + "  ") == core && Strip(core) == core
  {
    var s := core + "  ";
    assert LStrip(s) == s && LStrip(core) == core;
    assert s[..|s| - 1] == core + " " && (core + " ")[..|core + " "| - 1] == core;
    assert RStrip(s) == RStrip(core + " ") == RStrip(core) == core;
  }

  function JoinWords(ws: seq<string>): string
    requires ws != []
  {
    if |ws| == 1 then ws[0] else ws[0] + " " + JoinWords(ws[1..])
  }

  function Spaced(ws: seq<string>): seq<Token> {
    if ws == [] then [] else [Token(" ", ws[0])] + Spaced(ws[1..])
  }

  lemma {:induction false} WordRunOf(w: string, rest: string)
    requires (forall i :: 0 <= i < |w| ==> !IsSpace(w[i])) && (rest == "" || IsSpace(rest[0]))
    ensures WordRun(w + rest) == |w|
  {
    if w == "" {
      assert w + rest == rest;
    } else {
      WordRunOf(w[1..], rest);
      assert (w + rest)[1..] == w[1..] + rest;
    }
  }

  lemma SpaceRunOf(gap: string, tail: string)
    requires (gap == "" || gap == " ") && (tail == "" || !IsSpace(tail[0]))
    ensures SpaceRun(gap + tail) == |gap|
  {
    assert gap == " " ==> (gap + tail)[1..] == tail;
    assert gap == "" ==> gap + tail == tail;
  }

  lemma TokensStep(s: string)
    requires SpaceRun(s) < |s|
    ensures var g := SpaceRun(s); var k := WordRun(s[g..]);
            Tokens(s) == [Token(s[..g], s[g..][..k])] + Tokens(s[g..][k..])
  {
    hide SpaceRun, WordRun;
  }

  lemma OneToken(gap: string, w: string, rest: string)
    requires (gap == "" || gap == " ") && Plain(w) && (rest == "" || IsSpace(rest[0]))
    ensures Tokens(gap + w + rest) == [Token(gap, w)] + Tokens(rest)
  {
    hide IsSpace, SpaceRun, WordRun, Tokens;
    var tail := w + rest;
    assert tail[0] == w[0];
    SpaceRunOf(gap, tail);
    WordRunOf(w, rest);
    var s := gap + tail;
    assert s == gap + w + rest;
    assert s[|gap|..] == tail && s[..|gap|] == gap;
    assert tail[..|w|] == w && tail[|w|..] == rest;
    TokensStep(s);
  }

  lemma {:induction false} TokensOfJoined(gap: string, ws: seq<string>)
    requires ws != [] && (gap == "" || gap == " ") && forall w :: w in ws ==> Plain(w)
    ensures Tokens(gap + JoinWords(ws)) == [Token(gap, ws[0])] + Spaced(ws[1..])
    decreases |ws|
  {
    hide Tokens, Plain;
    assert ws[0] in ws;
    if |ws| == 1 {
      assert gap + JoinWords(ws) == gap + ws[0] + "";
      OneToken(gap, ws[0], "");
      NoTokens();
      assert [Token(gap, ws[0])] + Spaced(ws[1..]) == [Token(gap, ws[0])] + [];
    } else {
      var rest := " " + JoinWords(ws[1..]);
      assert gap + JoinWords(ws) == gap + ws[0] + rest;
      OneToken(gap, ws[0], rest);
      TokensOfJoined(" ", ws[1..]);
      assert Spaced(ws[1..]) == [Token(" ", ws[1..][0])] + Spaced(ws[1..][1..]);
    }
  }

  lemma NoTokens()
    ensures Tokens("") == []
  {
  }

  // ---- the words of a printed rule ----

  function ModalWords(r: Rule): seq<string> {
    if r.effect == DENY then ["MUST", "NOT"] else if EffectiveRequiresHuman(r) then ["MUST"] else ["MAY"]
  }

  function AmountWordsOf(r: Rule): seq<string>
    requires r.maxAmount.Some? ==> r.maxAmount.value >= 0
  {
    match r.maxAmount case None => [] case Some(n) => ["up", "to", Dec(n), r.currency]
  }

  function RuleWords(r: Rule): seq<string>
    requires r.maxAmount.Some? ==> r.maxAmount.value >= 0
  {
    [r.subject] + ModalWords(r) + [r.action] + AmountWordsOf(r) + ["[" + Label(r.reversibility) + "]"]
  }

  lemma {:induction false} JoinWordsTwo(a: seq<string>, b: seq<string>)
    requires a != [] && b != []
    ensures JoinWords(a + b) == JoinWords(a) + " " + JoinWords(b)
    decreases |a|
  {
    assert (a + b)[0] == a[0];
    if |a| == 1 {
      assert (a + b)[1..] == b;
    } else {
      JoinWordsTwo(a[1..], b);
      assert (a + b)[1..] == a[1..] + b;
      assert a[0] + " " + (JoinWords(a[1..]) + " " + JoinWords(b)) ==
             (a[0] + " " + JoinWords(a[1..])) + " " + JoinWords(b);
    }
  }

  lemma ModalJoins(r: Rule)
    ensures JoinWords(ModalWords(r)) == Modal(r)
  {
    if r.effect == DENY {
      assert ModalWords(r)[1..] == ["NOT"];
      assert "MUST" + " " + "NOT" == "MUST NOT";
    }
  }

  lemma AmountJoins(r: Rule)
    requires r.maxAmount.Some? && r.maxAmount.value >= 0
    ensures " " + JoinWords(AmountWordsOf(r)) == AmountText(r)
  {
    var n := Dec(r.maxAmount.value);
    var ws := AmountWordsOf(r);
    JoinWordsTwo(["up", "to"], [n, r.currency]);
    assert ["up", "to"] + [n, r.currency] == ws;
    assert ["up", "to"][1..] == ["to"] && [n, r.currency][1..] == [r.currency];
    assert JoinWords(["up", "to"]) == "up to" && JoinWords([n, r.currency]) == n + " " + r.currency;
    assert " " + ("up to" + " " + (n + " " + r.currency)) == " up to " + n + " " + r.currency;
  }

  lemma RuleCoreIsWords(r: Rule)
    requires r.maxAmount.Some? ==> r.maxAmount.value >= 0
    ensures RuleCore(r) == JoinWords(RuleWords(r))
  {
    hide JoinWords, AmountText, Modal, ModalWords, Label;
    var bracket := "[" + Label(r.reversibility) + "]";
    var front := [r.subject] + ModalWords(r);
    var upToAction := front + [r.action];
    assert ModalWords(r) != [] by { ModalNonEmpty(r); }
    JoinOne(r.subject); JoinOne(r.action); JoinOne(bracket);
    ModalJoins(r);
    JoinWordsTwo([r.subject], ModalWords(r));
    JoinWordsTwo(front, [r.action]);
    var start := r.subject + " " + Modal(r) + " " + r.action;
    if r.maxAmount.Some? {
      AmountJoins(r);
      JoinWordsTwo(upToAction, AmountWordsOf(r));
      JoinWordsTwo(upToAction + AmountWordsOf(r), [bracket]);
      assert start + " " + JoinWords(AmountWordsOf(r)) == start + (" " + JoinWords(AmountWordsOf(r)));
    } else {
      NoAmountText(r);
      assert upToAction + AmountWordsOf(r) == upToAction && start + "" == start;
      JoinWordsTwo(upToAction, [bracket]);
    }
    assert " [" + Label(r.reversibility) + "]" == " " + bracket;
  }

  lemma ModalNonEmpty(r: Rule)
    ensures ModalWords(r) != []
  {
  }

  lemma NoAmountText(r: Rule)
    requires r.maxAmount.None?
    ensures AmountText(r) == ""
  {
  }

  lemma JoinOne(w: string)
    ensures JoinWords([w]) == w
  {
  }

  lemma WordsArePlain(r: Rule)
    requires Parsed(r)
    ensures forall w :: w in RuleWords(r) ==> Plain(w)
  {
    hide Plain, Label, SubjectWord, ActionWord, CurrencyWord, EffectiveRequiresHuman, Dec;
    PlainName(r.subject);
    PlainName(r.action);
    FixedPlain();
    BracketPlain(r.reversibility);
    if r.maxAmount.Some? {
      DecReadsBack(r.maxAmount.value);
      PlainName(Dec(r.maxAmount.value));
      PlainName(r.currency);
    }
  }

  lemma PlainName(w: string)
    requires SubjectWord(w) || ActionWord(w) || CurrencyWord(w) || AllDigits(w)
    ensures Plain(w)
  {
  }

  lemma FixedPlain()
    ensures Plain("MUST") && Plain("NOT") && Plain("MAY") && Plain("up") && Plain("to")
  {
  }

  lemma BracketPlain(r: Reversibility)
    ensures Plain("[" + Label(r) + "]")
  {
    hide Label;
    LabelChars(r);
  }

  lemma UpperWords()
    ensures Upper("MAY") == "MAY" && Upper("MUST") == "MUST" && Upper("NOT") == "NOT"
    ensures Upper("up") == "UP" && Upper("to") == "TO"
  {
  }

  lemma LabelReadsBack(r: Reversibility)
    ensures ParseReversibility(Label(r)) == Some(r)
  {
    hide Strip, IsSpace;
    LabelChars(r);
    StripPadded(Label(r));
    assert Lower(Label(r)) == Label(r);
  }

  lemma LabelChars(r: Reversibility)
    ensures var w := Label(r); w != "" && forall i :: 0 <= i < |w| ==> 'a' <= w[i] <= 'z'
    ensures var w := Label(r); !IsSpace(w[0]) && !IsSpace(w[|w| - 1])
  {
  }

  lemma BracketOf(r: Reversibility)
    ensures var w := "[" + Label(r) + "]";
            BracketWord(w) && !ActionWord(w) && Inner(w) == Label(r) && ParseReversibility(Inner(w)) == Some(r)
  {
    hide Label, ParseReversibility, IsSpace;
    LabelChars(r);
    LabelReadsBack(r);
    var w := "[" + Label(r) + "]";
    assert w[0] == '[' && w[|w| - 1] == ']' && w[1..|w| - 1] == Label(r);
    assert forall i :: 1 <= i < |w| - 1 ==> w[i] == Label(r)[i - 1];
  }

  /** The tail of a printed statement matches, with its own action, amount and class. */
  lemma PrintedTail(r: Rule, modal: string)
    requires Parsed(r)
    ensures MatchTail(r.subject, modal, Spaced(TailWords(r))) ==
            Some(Statement(r.subject, modal, r.action,
                           if r.maxAmount.Some? then Some(Dec(r.maxAmount.value)) else None, r.currency,
                           Some(Label(r.reversibility))))
  {
    hide ActionWord, BracketWord, CurrencyWord, SubjectWord, AllDigits, Dec, Label, ParseReversibility, Upper;
    BracketOf(r.reversibility);
    var b := "[" + Label(r.reversibility) + "]";
    if r.maxAmount.Some? {
      var n := Dec(r.maxAmount.value);
      DecReadsBack(r.maxAmount.value);
      UpperWords();
      assert [r.action] + AmountWordsOf(r) + [b] == [r.action, "up", "to", n, r.currency, b];
      SpacedSix(r.action, "up", "to", n, r.currency, b);
    } else {
      assert [r.action] + AmountWordsOf(r) + [b] == [r.action, b];
      SpacedTwo(r.action, b);
    }
  }

  lemma SpacedCons(a: string, rest: seq<string>)
    ensures Spaced([a] + rest) == [Token(" ", a)] + Spaced(rest)
  {
    assert ([a] + rest)[1..] == rest;
  }

  lemma SpacedTwo(a: string, b: string)
    ensures Spaced([a, b]) == [Token(" ", a), Token(" ", b)]
  {
    SpacedOne(b);
    SpacedCons(a, [b]);
    assert [a] + [b] == [a, b];
  }

  lemma SpacedFive(a: string, b: string, c: string, d: string, e: string)
    ensures Spaced([a, b, c, d, e]) == [Token(" ", a), Token(" ", b), Token(" ", c), Token(" ", d), Token(" ", e)]
  {
    hide Spaced;
    SpacedTwo(d, e);
    SpacedCons(c, [d, e]);
    SpacedCons(b, [c, d, e]);
    SpacedCons(a, [b, c, d, e]);
    assert [c] + [d, e] == [c, d, e] && [b] + [c, d, e] == [b, c, d, e] && [a] + [b, c, d, e] == [a, b, c, d, e];
  }

  lemma SpacedSix(a: string, b: string, c: string, d: string, e: string, f: string)
    ensures Spaced([a, b, c, d, e, f]) ==
            [Token(" ", a), Token(" ", b), Token(" ", c), Token(" ", d), Token(" ", e), Token(" ", f)]
  {
    hide Spaced;
    SpacedFive(b, c, d, e, f);
    SpacedCons(a, [b, c, d, e, f]);
    assert [a] + [b, c, d, e, f] == [a, b, c, d, e, f];
  }

  /** A printed permission of the action "not" cannot be read as a prohibition: what is left after
      the second word does not match. */
  lemma NotIsNoModal(r: Rule, modal: string)
    requires Parsed(r)
    ensures MatchTail(r.subject, modal, Spaced(AmountWordsOf(r) + ["[" + Label(r.reversibility) + "]"])) == None
  {
    hide BracketWord, CurrencyWord, SubjectWord, AllDigits, Dec, Label, ParseReversibility, ActionWord, Upper;
    BracketOf(r.reversibility);
    var b := "[" + Label(r.reversibility) + "]";
    if r.maxAmount.Some? {
      var n := Dec(r.maxAmount.value);
      assert AmountWordsOf(r) + [b] == ["up", "to", n, r.currency, b];
      SpacedFive("up", "to", n, r.currency, b);
      UpperWords();
      assert Upper("to") != "UP";
    } else {
      assert AmountWordsOf(r) + [b] == [b] && [b][1..] == [];
    }
  }

  lemma {:induction false} SpacedTwoParts(a: seq<string>, b: seq<string>)
    ensures Spaced(a + b) == Spaced(a) + Spaced(b) && |Spaced(a)| == |a|
  {
    if a == [] {
      assert a + b == b;
    } else {
      var rest := a[1..];
      SpacedTwoParts(rest, b);
      assert a + b == [a[0]] + (rest + b) && a == [a[0]] + rest;
      SpacedCons(a[0], rest + b);
      SpacedCons(a[0], rest);
      hide Spaced;
      assert [Token(" ", a[0])] + (Spaced(rest) + Spaced(b)) == ([Token(" ", a[0])] + Spaced(rest)) + Spaced(b);
    }
  }

  /** The words of a statement read as its subject, modal and tail. */
  lemma MatchTwo(ts: seq<Token>, subject: string, modal: string, tail: seq<Token>)
    requires ts == [Token("", subject), Token(" ", modal), Token(" ", "NOT")] + tail && SubjectWord(subject)
    requires (modal == "MAY" || modal == "MUST") && MatchTail(subject, modal + " NOT", tail).Some?
    ensures MatchStatement(ts) == MatchTail(subject, modal + " NOT", tail)
  {
    hide MatchTail, SubjectWord, Upper;
    UpperWords();
    assert ts[3..] == tail;
  }

  lemma MatchOne(ts: seq<Token>, subject: string, modal: string, tail: seq<Token>)
    requires ts == [Token("", subject), Token(" ", modal)] + tail && SubjectWord(subject) && tail != []
    requires (modal == "MAY" || modal == "MUST") && MatchTail(subject, modal + " NOT", tail[1..]).None?
    ensures MatchStatement(ts) == MatchTail(subject, modal, tail)
  {
    hide MatchTail, SubjectWord, Upper;
    UpperWords();
    assert ts[2..] == tail && ts[3..] == tail[1..];
  }

  function TailWords(r: Rule): seq<string>
    requires r.maxAmount.Some? ==> r.maxAmount.value >= 0
  {
    [r.action] + AmountWordsOf(r) + ["[" + Label(r.reversibility) + "]"]
  }

  lemma PrintedMatches(r: Rule)
    requires Parsed(r)
    ensures MatchStatement([Token("", r.subject)] + Spaced(RuleWords(r)[1..])) ==
            Some(Statement(r.subject, Modal(r), r.action,
                           if r.maxAmount.Some? then Some(Dec(r.maxAmount.value)) else None, r.currency,
                           Some(Label(r.reversibility))))
  {
    hide MatchTail, MatchStatement, SubjectWord, ActionWord, CurrencyWord, Dec, Label, Spaced, AmountWordsOf;
    var tail := TailWords(r);
    var ts := [Token("", r.subject)] + Spaced(RuleWords(r)[1..]);
    assert RuleWords(r)[1..] == ModalWords(r) + tail;
    SpacedTwoParts(ModalWords(r), tail);
    PrintedTail(r, Modal(r));
    if r.effect == DENY {
      SpacedTwo("MUST", "NOT");
      assert "MUST" + " NOT" == "MUST NOT";
      MatchTwo(ts, r.subject, "MUST", Spaced(tail));
    } else {
      var m := Modal(r);
      SpacedOne(m);
      var after := AmountWordsOf(r) + ["[" + Label(r.reversibility) + "]"];
      SpacedCons(r.action, after);
      assert tail == [r.action] + after && Spaced(tail)[1..] == Spaced(after);
      NotIsNoModal(r, m + " NOT");
      MatchOne(ts, r.subject, m, Spaced(tail));
    }
  }

  lemma SpacedOne(a: string)
    ensures Spaced([a]) == [Token(" ", a)]
  {
    assert [a][1..] == [];
  }

  lemma {:induction false} JoinedChars(ws: seq<string>)
    requires ws != [] && forall w :: w in ws ==> Plain(w)
    ensures var s := JoinWords(ws);
            && s != "" && (forall i :: 0 <= i < |s| ==> s[i] != '#' && !IsBreak(s[i]))
            && !IsSpace(s[0]) && !IsSpace(s[|s| - 1])
    decreases |ws|
  {
    assert ws[0] in ws;
    if |ws| > 1 { JoinedChars(ws[1..]); }
  }

  /** What is left of a printed line without its comment. */
  lemma RuleLineCore(r: Rule)
    requires Parsed(r)
    ensures Strip(BeforeHash(RuleLine(r))) == RuleCore(r) != "" && NoBreaks(RuleLine(r))
  {
    hide Strip, BeforeHash, RuleCore, JoinWords, RuleWords, Plain, TierMeets, IsSpace;
    var core := RuleCore(r);
    RuleCoreIsWords(r);
    WordsArePlain(r);
    RuleWordsStart(r);
    JoinedChars(RuleWords(r));
    var rest := " tier >= " + EffectiveMinTier(r);
    assert RuleLine(r) == (core + "  ") + "#" + rest;
    assert RuleLine(r) == core + ("  # tier >= " + EffectiveMinTier(r));
    BeforeHashOf(core + "  ", rest);
    StripPadded(core);
    TierTextPlain(r);
  }

  lemma CoreMatches(r: Rule)
    requires Parsed(r)
    ensures MatchStatement(Tokens(RuleCore(r))) ==
            Some(Statement(r.subject, Modal(r), r.action,
                           if r.maxAmount.Some? then Some(Dec(r.maxAmount.value)) else None, r.currency,
                           Some(Label(r.reversibility))))
  {
    hide MatchStatement, Tokens, RuleCore, JoinWords, RuleWords, Plain;
    hide SubjectWord, ActionWord, CurrencyWord, Upper, Dec, Label;
    RuleCoreIsWords(r);
    WordsArePlain(r);
    RuleWordsStart(r);
    TokensOfJoined("", RuleWords(r));
    assert "" + JoinWords(RuleWords(r)) == RuleCore(r);
    PrintedMatches(r);
  }

  /** The rule a printed line reads back as. */
  lemma RuleLineReadsBack(n: nat, r: Rule)
    requires Parsed(r)
    ensures ParseLine(n, RuleLine(r)).Ok? && ParseLine(n, RuleLine(r)).value.Some?
    ensures Similar(r, ParseLine(n, RuleLine(r)).value.value) && NoBreaks(RuleLine(r))
  {
    hide Tokens, MatchStatement, Strip, BeforeHash, RuleLine, RuleCore, Dec, Value, AllDigits, ParseReversibility,
      SubjectWord, ActionWord, CurrencyWord, Upper, Label, NoBreaks;
    RuleLineCore(r);
    CoreMatches(r);
    LabelReadsBack(r.reversibility);
    if r.maxAmount.Some? { DecReadsBack(r.maxAmount.value); }
    UpperOfEmpty();
  }

  lemma RuleWordsStart(r: Rule)
    requires Parsed(r)
    ensures RuleWords(r) != [] && RuleWords(r)[0] == r.subject
  {
  }

  lemma TierTextPlain(r: Rule)
    requires Parsed(r)
    ensures NoBreaks("  # tier >= " + EffectiveMinTier(r))
  {
  }

  lemma {:induction false} RuleLinesReadBack(rules: seq<Rule>, n: nat)
    requires forall r :: r in rules ==> Parsed(r)
    ensures ParseLines(RuleLines(rules), n).Ok? && AllSimilar(rules, ParseLines(RuleLines(rules), n).value)
    decreases |rules|
  {
    hide ParseLine, RuleLine, Parsed, Similar;
    if rules != [] {
      assert rules[0] in rules;
      RuleLineReadsBack(n, rules[0]);
      RuleLinesReadBack(rules[1..], n + 1);
      assert RuleLines(rules)[1..] == RuleLines(rules[1..]);
    }
  }

  // ---- the printed document, read again ----

  lemma SplitNothing()
    ensures SplitLines("") == []
  {
  }

  /** Where the first line of a text ends and the next begins. */
  ghost predicate FirstLine(s: string, k: nat, next: nat) {
    && k < |s| && IsBreak(s[k]) && (forall i :: 0 <= i < k ==> !IsBreak(s[i]))
    && next == if s[k] == '\r' && k + 1 < |s| && s[k + 1] == '\n' then k + 2 else k + 1
  }

  lemma SplitNext(s: string, k: nat, next: nat)
    requires FirstLine(s, k, next)
    ensures SplitLines(s) == [s[..k]] + SplitLines(s[next..])
  {
    assert FirstBreak(s) == k;
  }

  lemma FirstLineOfMore(a: string, more: string, k: nat, next: nat)
    requires FirstLine(a, k, next) && (a[k] == '\r' ==> k + 1 < |a|)
    ensures SplitLines(a + more) == [a[..k]] + SplitLines(a[next..] + more)
  {
    hide SplitLines, IsBreak;
    var s := a + more;
    assert FirstLine(s, k, next);
    SplitNext(s, k, next);
    assert s[..k] == a[..k] && s[next..] == a[next..] + more;
  }

  lemma TrailingReturn(a: string, b: string, k: nat)
    requires k + 1 == |a| && a[k] == '\r' && forall i :: 0 <= i < k ==> !IsBreak(a[i])
    ensures SplitLines(a + "\n" + b) == [a[..k]] + SplitLines(b)
  {
    hide SplitLines;
    var s := a + "\n" + b;
    assert FirstLine(s, k, k + 2);
    SplitNext(s, k, k + 2);
    assert s[..k] == a[..k] && s[k + 2..] == b;
  }

  lemma LinesAssociative(a: seq<string>, b: seq<string>, c: seq<string>)
    ensures a + (b + c) == (a + b) + c
  {
  }

  /** Breaking after a line feed breaks the text in two. */
  lemma {:induction false} SplitAtLineFeed(a: string, b: string)
    ensures SplitLines(a + "\n" + b) == SplitLines(a + "\n") + SplitLines(b)
    decreases |a|
  {
    hide SplitLines, IsBreak;
    var k := FirstBreak(a);
    SplitNothing();
    assert a + "\n" + "" == a + "\n";
    if k == |a| {
      SplitOneLine(a, b);
      SplitOneLine(a, "");
      assert [a] + [] == [a];
    } else if a[k] == '\r' && k + 1 == |a| {
      TrailingReturn(a, b, k);
      TrailingReturn(a, "", k);
      assert [a[..k]] + [] == [a[..k]];
    } else {
      var next := if a[k] == '\r' && a[k + 1] == '\n' then k + 2 else k + 1;
      FirstLineOfMore(a, "\n" + b, k, next);
      FirstLineOfMore(a, "\n", k, next);
      assert a + ("\n" + b) == a + "\n" + b && a[next..] + ("\n" + b) == a[next..] + "\n" + b;
      SplitAtLineFeed(a[next..], b);
      LinesAssociative([a[..k]], SplitLines(a[next..] + "\n"), SplitLines(b));
    }
  }

  lemma {:induction false} ParseLinesTwoParts(x: seq<string>, y: seq<string>, n: nat)
    ensures ParseLines(x + y, n) ==
            if ParseLines(x, n).Err? then ParseLines(x, n) else Prepend(ParseLines(x, n).value, ParseLines(y, n + |x|))
    decreases |x|
  {
    hide ParseLine;
    var last := ParseLines(y, n + |x|);
    if x == [] {
      assert x + y == y;
      assert last.Ok? ==> [] + last.value == last.value;
    } else {
      ParseLinesTwoParts(x[1..], y, n + 1);
      assert (x + y)[1..] == x[1..] + y && (x + y)[0] == x[0];
      var one, mid := ParseLine(n, x[0]), ParseLines(x[1..], n + 1);
      assert one.Ok? && one.value.Some? && mid.Ok? && last.Ok? ==>
             [one.value.value] + (mid.value + last.value) == ([one.value.value] + mid.value) + last.value;
    }
  }

  /** The title line of a printed policy, with the break that ends it. */
  function Title(name: string, version: string): string { "# " + name + " v" + version + "\n" }

  /** Nothing but white space before the first hash, if any. */
  predicate CommentOrBlank(line: string) { Strip(BeforeHash(line)) == "" }

  /** Every line of the title is a comment or blank. */
  predicate TitleIsComment(name: string, version: string) {
    forall l :: l in SplitLines(Title(name, version)) ==> CommentOrBlank(l)
  }

  lemma {:induction false} CommentsSayNothing(lines: seq<string>, n: nat)
    ensures ParseLines(lines, n) == Ok([]) <==> forall l :: l in lines ==> CommentOrBlank(l)
    decreases |lines|
  {
    hide ParseLine, CommentOrBlank;
    if lines != [] {
      CommentsSayNothing(lines[1..], n + 1);
      LineSaysNothing(lines[0], n);
      assert lines == [lines[0]] + lines[1..];
      var one, rest := ParseLine(n, lines[0]), ParseLines(lines[1..], n + 1);
      assert one.Ok? && one.value.Some? && rest.Ok? ==> |[one.value.value] + rest.value| > 0;
    }
  }

  lemma LineSaysNothing(line: string, n: nat)
    ensures ParseLine(n, line) == Ok(None) <==> CommentOrBlank(line)
  {
    hide MatchStatement, Strip, BeforeHash, Tokens, ParseReversibility;
  }

  /** A name and a version on one line are a comment. */
  lemma OneLineTitleIsComment(name: string, version: string)
    requires NoBreaks(name) && NoBreaks(version)
    ensures TitleIsComment(name, version)
  {
    hide IsBreak, SplitLines;
    var t := "# " + name + " v" + version;
    TitleCharacters(name, version);
    SplitOneLine(t, "");
    SplitNothing();
    assert t + "\n" + "" == Title(name, version);
    assert [t] + [] == [t];
    assert t[0] == '#';
  }

  lemma TitleCharacters(name: string, version: string)
    requires NoBreaks(name) && NoBreaks(version)
    ensures NoBreaks("# " + name + " v" + version)
  {
  }

  /** The lines after the title. */
  function Below(rules: seq<Rule>, digest: string): seq<string> {
    ["# digest " + digest, "# default: deny", ""] + RuleLines(rules)
  }

  lemma BelowReadsBack(rules: seq<Rule>, digest: string, n: nat)
    requires NoBreaks(digest) && forall r :: r in rules ==> Parsed(r)
    ensures var back := ParseLines(SplitLines(JoinLines(Below(rules, digest))), n);
            back.Ok? && AllSimilar(rules, back.value)
  {
    hide ParseLine, IsBreak, SplitLines, RuleLine, Parsed, Similar;
    var ls := Below(rules, digest);
    forall l | l in RuleLines(rules) ensures NoBreaks(l) {
      var i :| 0 <= i < |rules| && RuleLines(rules)[i] == l;
      assert rules[i] in rules;
      RuleLineReadsBack(1, rules[i]);
    }
    FixedUnbroken(digest);
    ParseJoined(ls, n);
    BlankParses(n, ls[0]); BlankParses(n + 1, ls[1]); BlankParses(n + 2, ls[2]);
    assert ls[1..][1..] == ls[2..] && ls[2..][1..] == RuleLines(rules);
    assert ls[1..][0] == ls[1] && ls[2..][0] == ls[2];
    RuleLinesReadBack(rules, n + 3);
    assert ParseLines(ls[2..], n + 2) == ParseLines(RuleLines(rules), n + 3);
    assert ParseLines(ls[1..], n + 1) == ParseLines(RuleLines(rules), n + 3);
  }

  lemma FixedUnbroken(digest: string)
    requires NoBreaks(digest)
    ensures NoBreaks("# digest " + digest) && NoBreaks("# default: deny") && NoBreaks("")
  {
  }

  /** Reading a printed policy gives what its title says, then its own rules up to id, note and
      modal. */
  lemma PrintedReadsBack(rules: seq<Rule>, name: string, version: string, digest: string)
    requires NoBreaks(digest) && forall r :: r in rules ==> Parsed(r)
    ensures var title, back := ParseText(Title(name, version)), ParseText(Explain(rules, name, version, digest));
            && back.Err? == title.Err?
            && (title.Ok? ==> |back.value| == |title.value| + |rules| && back.value[..|title.value|] == title.value
                              && AllSimilar(rules, back.value[|title.value|..]))
  {
    hide ParseLines, SplitLines, Parsed, JoinLines, Similar, RuleLine;
    var t, below := "# " + name + " v" + version, Below(rules, digest);
    assert HeaderLines(name, version, digest) + RuleLines(rules) == [t] + below;
    JoinLinesCons(t, below);
    SplitAtLineFeed(t, JoinLines(below));
    var first := SplitLines(t + "\n");
    ParseLinesTwoParts(first, SplitLines(JoinLines(below)), 1);
    BelowReadsBack(rules, digest, 1 + |first|);
  }

  lemma JoinLinesCons(first: string, rest: seq<string>)
    requires rest != []
    ensures JoinLines([first] + rest) == first + "\n" + JoinLines(rest)
  {
    assert ([first] + rest)[1..] == rest;
  }

  /** Printing the policy read from `text` and reading that again decides `req` as `text` does. */
  ghost predicate SameWhenPrinted(text: string, name: string, version: string, digest: string, req: Request)
    requires ParseText(text).Ok?
  {
    var back := ParseText(Explain(ParseText(text).value, name, version, digest));
    back.Ok? && Evaluate(back.value, req) == Evaluate(ParseText(text).value, req)
  }

  /** Printing a policy and reading it back preserves its meaning: for every policy `parse_text` can
      produce under a title that is a comment, the printed text reads back and gives the same
      decision on every request. Ids, notes and the spelling of the modal are what changes. */
  lemma ExplainPreservesMeaning(text: string, name: string, version: string, digest: string, req: Request)
    requires ParseText(text).Ok? && NoBreaks(digest) && TitleIsComment(name, version)
    ensures SameWhenPrinted(text, name, version, digest, req)
  {
    hide Evaluate, ParseLines, SplitLines, Parsed, Explain, Title, Similar;
    var rules := ParseText(text).value;
    CommentsSayNothing(SplitLines(Title(name, version)), 1);
    ParsedLines(SplitLines(text), 1);
    PrintedReadsBack(rules, name, version, digest);
    var back := ParseText(Explain(rules, name, version, digest)).value;
    assert back[0..] == back;
    SimilarDecide(rules, back, req);
  }

  /** The request everything at or above the floor is granted: highest tier, approved by a human. */
  function Strongest(subject: string, action: string): Request {
    Request(subject, action, "A2xH2", None, "", "", true)
  }

  lemma GlobReflexive(p: string)
    ensures Glob(p, p)
  {
  }

  lemma StrongestMeets(r: Reversibility)
    ensures TierMeets("A2xH2", FloorTier(r))
  {
    assert Strip("A2xH2") == "A2xH2" && Strip(FloorTier(r)) == FloorTier(r);
  }

  /** A rule that can be read and does not prohibit grants the strongest request it matches. */
  lemma StrongestGranted(rules: seq<Rule>, req: Request)
    requires req == Strongest(req.subject, req.action) && Candidates(rules, req) != []
    requires forall r :: r in Candidates(rules, req) ==> Parsed(r) && r.effect != DENY
    ensures Evaluate(rules, req).allowed
  {
    hide Candidates, TierMeets, FloorTier, SubjectWord, ActionWord, Specificity;
    StrongestMeets(MostSpecific(Candidates(rules, req)).reversibility);
  }

  lemma TopTierMeetsAll(tier: string)
    ensures TierMeets("A2xH2", tier)
  {
    assert Strip("A2xH2") == "A2xH2";
  }

  /** So a rule that says REQUIRE_APPROVAL lets some request through with no approval, exactly when the
      rule does not also say that a human is required and its class does not. */
  lemma WrittenApprovalAsksIff(r: Rule)
    requires r.effect == REQUIRE_APPROVAL
    ensures EffectiveRequiresHuman(r) <==> !exists req: Request :: !req.humanApproved && Evaluate([r], req).allowed
  {
    hide TierMeets, Evaluate, Glob, Specificity;
    if EffectiveRequiresHuman(r) {
      forall req: Request | !req.humanApproved ensures !Evaluate([r], req).allowed { AllowedIff([r], req); }
    } else {
      var req := Strongest(r.subject, r.action).(humanApproved := false);
      GlobReflexive(r.subject);
      GlobReflexive(r.action);
      TopTierMeetsAll(FloorTier(r.reversibility));
      TopTierMeetsAll(r.minTier);
      AllowedIff([r], req);
      assert InForce([r], req, 0) && Permits([r][0], req);
    }
  }

  function AnyoneMay(): Rule { Rule("r1", "*", "*", ALLOW, REVERSIBLE, None, "", "", false, [], "") }

  lemma AnyoneMayText()
    ensures var text := RuleLine(AnyoneMay());
            ParseText(text).Ok? && AllSimilar([AnyoneMay()], ParseText(text).value)
  {
    hide ParseLine, RuleLine, Similar, IsBreak, SplitLines;
    var r := AnyoneMay();
    assert Parsed(r);
    RuleLineReadsBack(1, r);
    assert RuleLine(r) != "" by { RuleLineNonEmpty(r); }
    SplitLastLine(RuleLine(r));
    assert [RuleLine(r)][1..] == [];
  }

  lemma RuleLineNonEmpty(r: Rule)
    ensures RuleLine(r) != ""
  {
    hide EffectiveMinTier, RuleCore;
  }

  /** A title that holds more than comments always changes what some policy decides: it breaks the
      document, permits something, or prohibits something. */
  lemma TitleStatementsChangeMeaning(name: string, version: string, digest: string)
    requires NoBreaks(digest) && !TitleIsComment(name, version)
    ensures exists text, req :: ParseText(text).Ok? && !SameWhenPrinted(text, name, version, digest, req)
  {
    hide Evaluate, ParseLines, SplitLines, Parsed, Explain, Title, Similar, Candidates, Matches, RuleLine;
    assert ParseText("") == Ok([]) by { EmptyText(); }
    PrintedReadsBack([], name, version, digest);
    CommentsSayNothing(SplitLines(Title(name, version)), 1);
    var title := ParseText(Title(name, version));
    if title.Err? {
      assert !SameWhenPrinted("", name, version, digest, Strongest("", ""));
    } else {
      var hs := title.value;
      ParsedLines(SplitLines(Title(name, version)), 1);
      var req := Strongest(hs[0].subject, hs[0].action);
      assert Matches(hs[0], req) by { MatchesOwn(hs[0]); }
      assert hs[0] in Candidates(hs, req);
      if d :| d in Candidates(hs, req) && d.effect == DENY {
        TitleProhibits(hs, d, name, version, digest, req);
      } else {
        var back := ParseText(Explain([], name, version, digest)).value;
        assert back == hs;
        StrongestGranted(hs, req);
        NothingAllowed(req);
        assert !SameWhenPrinted("", name, version, digest, req);
      }
    }
  }

  lemma MatchesOwn(r: Rule)
    ensures Matches(r, Strongest(r.subject, r.action))
  {
    hide Glob;
    GlobReflexive(r.subject);
    GlobReflexive(r.action);
  }

  lemma EmptyText()
    ensures ParseText("") == Ok([])
  {
  }

  lemma NothingAllowed(req: Request)
    ensures !Evaluate([], req).allowed
  {
  }

  lemma TitleProhibits(hs: seq<Rule>, d: Rule, name: string, version: string, digest: string, req: Request)
    requires NoBreaks(digest) && ParseText(Title(name, version)) == Ok(hs)
    requires d in hs && Matches(d, req) && d.effect == DENY && req == Strongest(req.subject, req.action)
    ensures var text := RuleLine(AnyoneMay());
            ParseText(text).Ok? && !SameWhenPrinted(text, name, version, digest, req)
  {
    hide Evaluate, ParseText, Parsed, Explain, Title, Similar, Matches, RuleLine;
    AnyoneMayText();
    var rules := ParseText(RuleLine(AnyoneMay())).value;
    TextIsParsed(RuleLine(AnyoneMay()));
    AnyoneMayAllows(req);
    SimilarDecide([AnyoneMay()], rules, req);
    PrintedReadsBack(rules, name, version, digest);
    var back := ParseText(Explain(rules, name, version, digest)).value;
    assert d in back[..|hs|] && d in back;
    if Evaluate(back, req).allowed { FloorAlwaysHolds(back, req); }
  }

  lemma TextIsParsed(text: string)
    requires ParseText(text).Ok?
    ensures forall r :: r in ParseText(text).value ==> Parsed(r)
  {
    ParsedLines(SplitLines(text), 1);
  }

  lemma AnyoneMayAllows(req: Request)
    requires req == Strongest(req.subject, req.action)
    ensures Evaluate([AnyoneMay()], req).allowed
  {
    hide TierMeets, Evaluate, SubjectWord, ActionWord;
    var r := AnyoneMay();
    assert Strip("*") == "*" && Lower("*") == "*";
    assert Matches(r, req);
    assert r in Candidates([r], req);
    AnyoneParsed();
    assert forall c :: c in Candidates([r], req) ==> c == r;
    StrongestGranted([r], req);
  }

  lemma AnyoneParsed()
    ensures Parsed(AnyoneMay())
  {
  }

  /** Exactly when printing preserves meaning: the title must read as comments. */
  lemma ExplainPreservesMeaningIff(name: string, version: string, digest: string)
    requires NoBreaks(digest)
    ensures TitleIsComment(name, version) <==>
            forall text, req :: ParseText(text).Ok? ==> SameWhenPrinted(text, name, version, digest, req)
  {
    hide TitleIsComment, SameWhenPrinted, ParseText;
    if TitleIsComment(name, version) {
      forall text, req | ParseText(text).Ok? ensures SameWhenPrinted(text, name, version, digest, req) {
        ExplainPreservesMeaning(text, name, version, digest, req);
      }
    } else {
      TitleStatementsChangeMeaning(name, version, digest);
    }
  }
}
