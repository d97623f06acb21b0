/** engine/questions.py: questions with a closed answer set, and verdicts that abstain unless
    they clear the question's own bar. A dict of probabilities is a list of entries in
    insertion order, with distinct names. */
module Questions {
  import opened Common
  import opened Reals

  datatype Kind = NOUL | CHOICE | SCORE

  datatype Tier = DETERMINISTIC | LINEAR | SEMANTIC | CACHED | NONE_ANSWERED

  datatype Question = Question(id: string, kind: Kind, prompt: string, options: seq<string>, minConfidence: real,
                               minMargin: real)

  ghost predicate Distinct(ls: seq<string>) { forall i, j :: 0 <= i < j < |ls| ==> ls[i] != ls[j] }

  /** What the constructor lets through. */
  ghost predicate WellFormed(q: Question) {
    && (q.kind == NOUL ==> q.options == [])
    && (q.kind != NOUL ==> |q.options| >= 2 && Distinct(q.options))
    && 0.0 < q.minConfidence <= 1.0
  }

  function AnswerSet(q: Question): seq<string> { if q.kind == NOUL then ["no", "yes"] else q.options }

  datatype Entry = Entry(name: string, p: real)

  ghost predicate IsDict(es: seq<Entry>) { forall i, j :: 0 <= i < j < |es| ==> es[i].name != es[j].name }

  datatype Verdict = Verdict(questionId: string, kind: Kind, probabilities: seq<Entry>, tier: Tier, abstained: bool,
                             reason: string, micros: int)

  function Abstain(q: Question, reason: string, tier: Tier, micros: int): Verdict {
    Verdict(q.id, q.kind, [], tier, true, reason, micros)
  }

  function Reciprocal(m: real): real
    requires m > 0.0
  {
    1.0 / m
  }

  // ---- sums and maxima over entries ----

  function Mass(es: seq<Entry>): real { if es == [] then 0.0 else es[0].p + Mass(es[1..]) }

  function Positive(es: seq<Entry>): (r: seq<Entry>)
    ensures forall e :: e in r <==> e in es && e.p > 0.0
  {
    if es == [] then [] else (if es[0].p > 0.0 then [es[0]] else []) + Positive(es[1..])
  }

  function Scaled(es: seq<Entry>, factor: real): (r: seq<Entry>)
    ensures |r| == |es| && forall i :: 0 <= i < |es| ==> r[i].name == es[i].name
  {
    if es == [] then [] else [Entry(es[0].name, Times(es[0].p, factor))] + Scaled(es[1..], factor)
  }

  function Normalised(es: seq<Entry>): (r: seq<Entry>)
    requires Mass(es) > 0.0
    ensures |r| == |es| && r != [] && forall i :: 0 <= i < |es| ==> r[i].name == es[i].name
  {
    Scaled(es, Reciprocal(Mass(es)))
  }

  /** The first entry of greatest probability. */
  function Top(es: seq<Entry>): (i: nat)
    requires es != []
    ensures i < |es| && (forall j :: 0 <= j < |es| ==> es[j].p <= es[i].p)
    ensures forall j :: 0 <= j < i ==> es[j].p < es[i].p
  {
    if |es| == 1 then 0 else
    var k := Top(es[1..]);
    if es[0].p >= es[1..][k].p then 0 else k + 1
  }

  function Others(es: seq<Entry>, i: nat): (r: seq<Entry>)
    requires i < |es|
    ensures |r| == |es| - 1
  {
    es[..i] + es[i + 1..]
  }

  /** How far the greatest probability is above the next. */
  function Gap(es: seq<Entry>): real
    requires |es| >= 2
  {
    es[Top(es)].p - Others(es, Top(es))[Top(Others(es, Top(es)))].p
  }

  function Get(es: seq<Entry>, name: string): real {
    if es == [] then 0.0 else if es[0].name == name then es[0].p else Get(es[1..], name)
  }

  function IndexOf(name: string, levels: seq<string>): (r: Option<nat>)
    ensures r.Some? ==> r.value < |levels| && levels[r.value] == name
    ensures r.None? <==> name !in levels
  {
    if levels == [] then None
    else if levels[0] == name then Some(0)
    else match IndexOf(name, levels[1..]) case None => None case Some(i) => Some(i + 1)
  }

  function MassOf(es: seq<Entry>, levels: seq<string>): real {
    if levels == [] then 0.0 else Get(es, levels[0]) + MassOf(es, levels[1..])
  }

  // ---- the gates ----

  function Max(a: real, b: real): real { if a >= b then a else b }

  predicate IsBimodal(es: seq<Entry>, levels: seq<string>, threshold: real) {
    |levels| >= 3 &&
    var lo, hi := Get(es, levels[0]), Get(es, levels[|levels| - 1]);
    lo >= threshold && hi >= threshold && MassOf(es, levels[1..|levels| - 1]) < Max(lo, hi)
  }

  predicate Near(name: string, levels: seq<string>, centre: nat) {
    var i := IndexOf(name, levels);
    i.Some? && -1 <= i.value as int - centre as int <= 1
  }

  /** The mass within one level of `centre`. */
  function Window(es: seq<Entry>, levels: seq<string>, centre: nat): real {
    if es == [] then 0.0
    else (if Near(es[0].name, levels, centre) then es[0].p else 0.0) + Window(es[1..], levels, centre)
  }

  const BIMODAL_THRESHOLD := 0.25

  predicate Interpretable(es: seq<Entry>, levels: seq<string>, floor: real) {
    && es != [] && levels != []
    && (IsBimodal(es, levels, BIMODAL_THRESHOLD) ||
        match IndexOf(es[Top(es)].name, levels)
        case None => false
        case Some(centre) => Window(es, levels, centre) >= floor)
  }

  /** Why a distribution does not clear the question's bar; empty when it does. */
  function Complaint(q: Question, es: seq<Entry>): string
    requires es != []
  {
    if q.kind == SCORE && !Interpretable(es, q.options, q.minConfidence) then "no usable severity"
    else if q.kind != SCORE && es[Top(es)].p < q.minConfidence then "confidence below floor"
    else if |es| >= 2 && q.minMargin > 0.0 && Gap(es) < q.minMargin then "margin below floor"
    else ""
  }

  function Answered(q: Question, probabilities: seq<Entry>, tier: Tier, micros: int): Verdict {
    if exists e :: e in probabilities && e.name !in AnswerSet(q) then
      Abstain(q, "answers outside the set", tier, micros)
    else
      var clean := Positive(probabilities);
      if Mass(clean) <= 0.0 then Abstain(q, "no mass", tier, micros)
      else
        var es := Normalised(clean);
        var why := Complaint(q, es);
        if why != "" then Abstain(q, why, tier, micros)
        else Verdict(q.id, q.kind, es, tier, false, "", micros)
  }

  function Answer(v: Verdict): Option<string> {
    if v.abstained || v.probabilities == [] then None else Some(v.probabilities[Top(v.probabilities)].name)
  }

  function Weighted(es: seq<Entry>, levels: seq<string>, from: nat): real {
    if levels == [] then 0.0 else Times(from as real, Get(es, levels[0])) + Weighted(es, levels[1..], from + 1)
  }

  /** The expected level of a Score. */
  function Expected(v: Verdict, levels: seq<string>): Option<real>
    requires v.kind == SCORE
  {
    if v.abstained || v.probabilities == [] || MassOf(v.probabilities, levels) <= 0.0 then None
    else Some(Weighted(v.probabilities, levels, 0) / MassOf(v.probabilities, levels))
  }

  predicate Bimodal(v: Verdict, levels: seq<string>) {
    v.kind == SCORE && !v.abstained && IsBimodal(v.probabilities, levels, BIMODAL_THRESHOLD)
  }

  // ---- normalisation ----

  lemma ProductSign(a: real, b: real)
    requires b > 0.0
    ensures a > 0.0 <==> Times(a, b) > 0.0
  {
    if a <= 0.0 { assert (-a) * b >= 0.0; }
  }

  lemma ReciprocalUndoes(m: real)
    requires m > 0.0
    ensures Reciprocal(m) > 0.0 && Times(m, Reciprocal(m)) == 1.0
  {
  }

  lemma {:induction false} MassScaled(es: seq<Entry>, factor: real)
    ensures Mass(Scaled(es, factor)) == Times(Mass(es), factor)
  {
    if es != [] {
      MassScaled(es[1..], factor);
      Distribute(es[0].p, Mass(es[1..]), factor);
    }
  }

  lemma {:induction false} ScaledPositive(es: seq<Entry>, factor: real)
    requires factor > 0.0 && forall e :: e in es ==> e.p > 0.0
    ensures forall e :: e in Scaled(es, factor) ==> e.p > 0.0
  {
    hide Times;
    if es != [] {
      ProductSign(es[0].p, factor);
      ScaledPositive(es[1..], factor);
    }
  }

  lemma {:induction false} PositiveIsDict(es: seq<Entry>)
    requires IsDict(es)
    ensures IsDict(Positive(es))
  {
    if es != [] {
      PositiveIsDict(es[1..]);
      assert forall e :: e in Positive(es[1..]) ==> e in es[1..];
    }
  }

  lemma NormalisedIsDistribution(clean: seq<Entry>)
    requires IsDict(clean) && Mass(clean) > 0.0 && forall e :: e in clean ==> e.p > 0.0
    ensures IsDict(Normalised(clean)) && Normalised(clean) != [] && Mass(Normalised(clean)) == 1.0
    ensures forall e :: e in Normalised(clean) ==> e.p > 0.0
  {
    hide Times, Reciprocal, Scaled, Mass;
    ReciprocalUndoes(Mass(clean));
    MassScaled(clean, Reciprocal(Mass(clean)));
    ScaledPositive(clean, Reciprocal(Mass(clean)));
  }

  /** A verdict that does not abstain is a distribution over the question's own answers. */
  lemma AnsweredIsDistribution(q: Question, probabilities: seq<Entry>, tier: Tier, micros: int)
    requires IsDict(probabilities) && !Answered(q, probabilities, tier, micros).abstained
    ensures var es := Answered(q, probabilities, tier, micros).probabilities;
            && IsDict(es) && es != [] && Mass(es) == 1.0
            && forall e :: e in es ==> e.p > 0.0 && e.name in AnswerSet(q)
  {
    hide Complaint, Scaled;
    var clean := Positive(probabilities);
    PositiveIsDict(probabilities);
    NormalisedIsDistribution(clean);
    var es := Normalised(clean);
    forall e | e in es ensures e.name in AnswerSet(q) {
      var i :| 0 <= i < |es| && es[i] == e;
      assert clean[i] in clean;
    }
  }

  /** The only way not to abstain is to clear the question's floors: for yes/no and choice questions the
      top answer has the confidence, and for every kind each other answer trails it by the margin. */
  lemma AnsweredClearsFloors(q: Question, probabilities: seq<Entry>, tier: Tier, micros: int, j: nat)
    requires IsDict(probabilities)
    requires var v := Answered(q, probabilities, tier, micros); !v.abstained && j < |v.probabilities|
    ensures var es := Answered(q, probabilities, tier, micros).probabilities;
            && es != [] && (q.kind != SCORE ==> es[Top(es)].p >= q.minConfidence)
            && (j != Top(es) && q.minMargin > 0.0 ==> es[Top(es)].p - es[j].p >= q.minMargin)
  {
    hide Scaled, Complaint, Top, Gap, Normalised, Positive, Mass;
    var es := Answered(q, probabilities, tier, micros).probabilities;
    assert es == Normalised(Positive(probabilities)) && Complaint(q, es) == "";
    NoComplaint(q, es);
    if j != Top(es) { GapCovers(es, j); }
  }

  lemma NoComplaint(q: Question, es: seq<Entry>)
    requires es != [] && Complaint(q, es) == ""
    ensures q.kind != SCORE ==> es[Top(es)].p >= q.minConfidence
    ensures |es| >= 2 && q.minMargin > 0.0 ==> Gap(es) >= q.minMargin
  {
    hide Top, Gap, Interpretable;
  }

  lemma OthersAt(es: seq<Entry>, i: nat, j: nat)
    requires i < |es| && j < |es| && i != j
    ensures Others(es, i)[if j < i then j else j - 1] == es[j]
  {
  }

  lemma GapCovers(es: seq<Entry>, j: nat)
    requires j < |es| && |es| >= 2 && j != Top(es)
    ensures es[Top(es)].p - es[j].p >= Gap(es)
  {
    hide Top, Others;
    OthersAt(es, Top(es), j);
  }

  // ---- a usable severity is near the reported level ----

  ghost predicate Known(es: seq<Entry>, levels: seq<string>) { forall e :: e in es ==> e.name in levels }

  function Position(name: string, levels: seq<string>, from: nat): nat
    requires name in levels
  {
    from + IndexOf(name, levels).value
  }

  /** The mass-weighted index over entries, which is what the sum over levels amounts to. */
  function Moment(es: seq<Entry>, levels: seq<string>): real
    requires Known(es, levels)
  {
    if es == [] then 0.0
    else Times(Position(es[0].name, levels, 0) as real, es[0].p) + Moment(es[1..], levels)
  }

  lemma {:induction false} GetAbsent(es: seq<Entry>, name: string)
    requires forall e :: e in es ==> e.name != name
    ensures Get(es, name) == 0.0
  {
    if es != [] { GetAbsent(es[1..], name); }
  }

  lemma {:induction false} MassOfEmpty(levels: seq<string>, from: nat)
    ensures MassOf([], levels) == 0.0 && Weighted([], levels, from) == 0.0
  {
    assert Times(from as real, 0.0) == 0.0;
    if levels != [] { MassOfEmpty(levels[1..], from + 1); }
  }

  /** Adding one entry with a new name adds its mass at its level, and nowhere else. */
  lemma {:induction false} OneMoreMass(es: seq<Entry>, levels: seq<string>)
    requires es != [] && IsDict(es) && Distinct(levels)
    ensures MassOf(es, levels) == MassOf(es[1..], levels) + (if es[0].name in levels then es[0].p else 0.0)
    decreases |levels|
  {
    if levels != [] {
      OneMoreMass(es, levels[1..]);
      if levels[0] == es[0].name { GetAbsent(es[1..], levels[0]); }
    }
  }

  lemma PositionStep(name: string, levels: seq<string>, from: nat)
    requires name in levels && name != levels[0]
    ensures name in levels[1..] && Position(name, levels, from) == Position(name, levels[1..], from + 1)
  {
  }

  lemma {:induction false} OneMoreWeighted(es: seq<Entry>, levels: seq<string>, from: nat)
    requires es != [] && IsDict(es) && Distinct(levels)
    ensures es[0].name !in levels ==> Weighted(es, levels, from) == Weighted(es[1..], levels, from)
    ensures es[0].name in levels ==>
              Weighted(es, levels, from) ==
              Weighted(es[1..], levels, from) + Times(Position(es[0].name, levels, from) as real, es[0].p)
    decreases |levels|
  {
    hide Times;
    if levels != [] {
      OneMoreWeighted(es, levels[1..], from + 1);
      if levels[0] == es[0].name {
        GetAbsent(es[1..], levels[0]);
        TimesZero(from as real);
        assert es[0].name !in levels[1..];
        assert Position(es[0].name, levels, from) == from;
      } else if es[0].name in levels {
        PositionStep(es[0].name, levels, from);
      }
    }
  }

  lemma {:induction false} LevelsAgreeWithEntries(es: seq<Entry>, levels: seq<string>)
    requires IsDict(es) && Distinct(levels) && Known(es, levels)
    ensures MassOf(es, levels) == Mass(es) && Weighted(es, levels, 0) == Moment(es, levels)
  {
    hide MassOf, Weighted, Times;
    if es == [] {
      MassOfEmpty(levels, 0);
    } else {
      assert es[0] in es;
      OneMoreMass(es, levels);
      OneMoreWeighted(es, levels, 0);
      LevelsAgreeWithEntries(es[1..], levels);
    }
  }

  /** The signed and the greatest possible displacement from `centre`, entry by entry. */
  function Offset(name: string, levels: seq<string>, centre: nat): int
    requires name in levels
  {
    Position(name, levels, 0) - centre
  }

  function Displacement(es: seq<Entry>, levels: seq<string>, centre: nat): real
    requires Known(es, levels)
  {
    if es == [] then 0.0
    else Times(Offset(es[0].name, levels, centre) as real, es[0].p) + Displacement(es[1..], levels, centre)
  }

  function Slack(es: seq<Entry>, levels: seq<string>, centre: nat, far: real): real {
    if es == [] then 0.0
    else
      (if Near(es[0].name, levels, centre) then es[0].p else Times(es[0].p, far)) + Slack(es[1..], levels, centre, far)
  }

  lemma {:induction false} DisplacementIsMoment(es: seq<Entry>, levels: seq<string>, centre: nat)
    requires Known(es, levels)
    ensures Displacement(es, levels, centre) == Moment(es, levels) - Times(centre as real, Mass(es))
  {
    hide Times;
    if es == [] {
      assert Times(centre as real, 0.0) == 0.0 by { TimesZero(centre as real); }
    } else {
      assert es[0] in es;
      DisplacementIsMoment(es[1..], levels, centre);
      Distribute(Position(es[0].name, levels, 0) as real, centre as real, es[0].p);
      Distribute(es[0].p, Mass(es[1..]), centre as real);
    }
  }

  lemma TimesZero(a: real)
    ensures Times(a, 0.0) == 0.0 && Times(0.0, a) == 0.0 && Times(a, 1.0) == a
  {
  }

  lemma {:induction false} SlackIsWindow(es: seq<Entry>, levels: seq<string>, centre: nat, far: real)
    ensures Slack(es, levels, centre, far) ==
            Window(es, levels, centre) + Times(Mass(es) - Window(es, levels, centre), far)
  {
    hide Times;
    if es == [] {
      TimesZero(far);
    } else {
      SlackIsWindow(es[1..], levels, centre, far);
      Distribute(es[0].p, Mass(es[1..]) - Window(es[1..], levels, centre), far);
    }
  }

  lemma {:induction false} DisplacementWithinSlack(es: seq<Entry>, levels: seq<string>, centre: nat)
    requires centre < |levels| && Known(es, levels) && forall e :: e in es ==> e.p > 0.0
    ensures -Slack(es, levels, centre, (|levels| - 1) as real) <= Displacement(es, levels, centre)
    ensures Displacement(es, levels, centre) <= Slack(es, levels, centre, (|levels| - 1) as real)
  {
    hide Times;
    if es != [] {
      assert es[0] in es;
      DisplacementWithinSlack(es[1..], levels, centre);
      Spread(Offset(es[0].name, levels, centre), es[0].p, |levels| - 1);
      Spread(Offset(es[0].name, levels, centre), es[0].p, 1);
      TimesZero(es[0].p);
    }
  }

  lemma Spread(d: int, p: real, bound: int)
    requires p >= 0.0
    ensures -bound <= d <= bound ==> -Times(p, bound as real) <= Times(d as real, p) <= Times(p, bound as real)
  {
    if -bound <= d <= bound {
      assert (bound as real - d as real) * p >= 0.0;
      assert (bound as real + d as real) * p >= 0.0;
    }
  }

  lemma SlackShrinks(w: real, f: real, far: real)
    requires f <= w && far >= 1.0
    ensures w + Times(1.0 - w, far) <= f + Times(1.0 - f, far)
  {
    assert (w - f) * (far - 1.0) >= 0.0;
  }

  /** The farthest the expected level can be from the reported one: `floor` of the mass one level
      off and the rest at the other end. */
  function Bound(floor: real, n: nat): real { floor + Times(1.0 - floor, (n - 1) as real) }

  lemma OffBound(es: seq<Entry>, levels: seq<string>, centre: nat, floor: real)
    requires centre < |levels| && |levels| >= 2 && Known(es, levels) && forall e :: e in es ==> e.p > 0.0
    requires Mass(es) == 1.0 && Window(es, levels, centre) >= floor
    ensures -Bound(floor, |levels|) <= Moment(es, levels) - (centre as real) <= Bound(floor, |levels|)
  {
    hide Displacement, Slack, Moment, Window, Mass, Times;
    var far := (|levels| - 1) as real;
    DisplacementIsMoment(es, levels, centre);
    TimesZero(centre as real);
    SlackIsWindow(es, levels, centre, far);
    DisplacementWithinSlack(es, levels, centre);
    SlackShrinks(Window(es, levels, centre), floor, far);
  }

  lemma NoComplaintOnScore(q: Question, es: seq<Entry>)
    requires es != [] && q.kind == SCORE && Complaint(q, es) == "" && !IsBimodal(es, q.options, BIMODAL_THRESHOLD)
    ensures var centre := IndexOf(es[Top(es)].name, q.options);
            centre.Some? && Window(es, q.options, centre.value) >= q.minConfidence
  {
    hide Top, Gap, Window, IsBimodal;
  }

  /** Every Score verdict that neither abstains nor is flagged bimodal has probabilities summing to
      one, and its expected level is within f + (1 - f)(n - 1) of the level it reports. */
  lemma SeverityNearAnswer(q: Question, probabilities: seq<Entry>, tier: Tier, micros: int)
    requires WellFormed(q) && q.kind == SCORE && IsDict(probabilities)
    requires var v := Answered(q, probabilities, tier, micros); !v.abstained && !Bimodal(v, q.options)
    ensures var v := Answered(q, probabilities, tier, micros);
            && Mass(v.probabilities) == 1.0 && Expected(v, q.options).Some? && Answer(v).Some?
            && IndexOf(Answer(v).value, q.options).Some?
            && var off := Expected(v, q.options).value - (IndexOf(Answer(v).value, q.options).value as real);
               -Bound(q.minConfidence, |q.options|) <= off <= Bound(q.minConfidence, |q.options|)
  {
    hide Normalised, Positive, Complaint, IsBimodal, Window, Moment, Weighted, MassOf, Mass, Times, Top, Bound;
    var v := Answered(q, probabilities, tier, micros);
    var es := v.probabilities;
    AnsweredIsDistribution(q, probabilities, tier, micros);
    assert Complaint(q, es) == "";
    NoComplaintOnScore(q, es);
    LevelsAgreeWithEntries(es, q.options);
    OffBound(es, q.options, IndexOf(es[Top(es)].name, q.options).value, q.minConfidence);
  }

  // ---- only the ratios of the raw scores matter ----

  lemma ScaledCons(e: Entry, rest: seq<Entry>, c: real)
    ensures Scaled([e] + rest, c) == [Entry(e.name, Times(e.p, c))] + Scaled(rest, c)
  {
    hide Times;
    assert ([e] + rest)[1..] == rest;
  }

  lemma PositiveCons(e: Entry, rest: seq<Entry>)
    ensures Positive([e] + rest) == (if e.p > 0.0 then [e] else []) + Positive(rest)
  {
    assert ([e] + rest)[1..] == rest;
  }

  lemma {:induction false} PositiveScaled(es: seq<Entry>, c: real)
    requires c > 0.0
    ensures Positive(Scaled(es, c)) == Scaled(Positive(es), c)
  {
    if es != [] {
      var e, rest := es[0], es[1..];
      assert es == [e] + rest;
      PositiveScaled(rest, c);
      PositiveScaledCons(e, rest, c);
    }
  }

  lemma PositiveScaledCons(e: Entry, rest: seq<Entry>, c: real)
    requires c > 0.0 && Positive(Scaled(rest, c)) == Scaled(Positive(rest), c)
    ensures Positive(Scaled([e] + rest, c)) == Scaled(Positive([e] + rest), c)
  {
    hide Scaled, Positive, Times;
    ScaledCons(e, rest, c);
    PositiveCons(e, rest);
    PositiveCons(Entry(e.name, Times(e.p, c)), Scaled(rest, c));
    ProductSign(e.p, c);
    if e.p > 0.0 {
      ScaledCons(e, Positive(rest), c);
    } else {
      assert [] + Positive(rest) == Positive(rest);
      assert [] + Scaled(Positive(rest), c) == Scaled(Positive(rest), c);
    }
  }

  lemma Cancel(p: real, c: real, m: real)
    requires c > 0.0 && m > 0.0
    ensures Times(m, c) > 0.0 && Times(Times(p, c), Reciprocal(Times(m, c))) == Times(p, Reciprocal(m))
  {
    ProductSign(m, c);
    var r := Reciprocal(m * c);
    assert m * c * r == 1.0;
    assert m * (c * r) == 1.0;
    assert c * r == Reciprocal(m);
    assert p * c * r == p * (c * r);
  }

  lemma {:induction false} RescaledSame(es: seq<Entry>, c: real, m: real)
    requires c > 0.0 && m > 0.0 && Times(m, c) > 0.0
    ensures Scaled(Scaled(es, c), Reciprocal(Times(m, c))) == Scaled(es, Reciprocal(m))
  {
    hide Times, Reciprocal;
    if es != [] {
      Cancel(es[0].p, c, m);
      RescaledSame(es[1..], c, m);
      assert Scaled(es, c)[1..] == Scaled(es[1..], c);
    }
  }

  lemma NormalisedScaled(clean: seq<Entry>, c: real)
    requires c > 0.0 && Mass(clean) > 0.0
    ensures Mass(Scaled(clean, c)) > 0.0 && Normalised(Scaled(clean, c)) == Normalised(clean)
  {
    hide Scaled, Mass, Times, Reciprocal;
    MassScaled(clean, c);
    ProductSign(Mass(clean), c);
    RescaledSame(clean, c, Mass(clean));
  }

  /** Multiplying every raw score by a positive constant gives the same verdict. */
  lemma ScaleInvariant(q: Question, probabilities: seq<Entry>, c: real, tier: Tier, micros: int)
    requires c > 0.0
    ensures Answered(q, Scaled(probabilities, c), tier, micros) == Answered(q, probabilities, tier, micros)
  {
    hide Scaled, Positive, Normalised, Complaint, Mass, Times;
    var scaled := Scaled(probabilities, c);
    assert forall i :: 0 <= i < |probabilities| ==> scaled[i] in scaled && probabilities[i] in probabilities;
    var clean := Positive(probabilities);
    PositiveScaled(probabilities, c);
    MassScaled(clean, c);
    ProductSign(Mass(clean), c);
    if Mass(clean) > 0.0 { NormalisedScaled(clean, c); }
  }
}
