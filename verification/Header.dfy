/** protocol/identity.py: the one parser and printer of the XCP-Agent-Identity header,
    `agentId;chainId;footprint` with optional whitespace (OWS, section 5.6.3 of RFC 9110) around it. */
module Header {
  import opened Common
  import opened Text

  predicate IsOws(c: char) { c == ' ' || c == '\t' }

  ghost predicate AllOws(s: string) { forall i :: 0 <= i < |s| ==> IsOws(s[i]) }

  function TrimLeft(s: string): string { if s != "" && IsOws(s[0]) then TrimLeft(s[1..]) else s }

  function TrimRight(s: string): string
    decreases |s|
  {
    if s != "" && IsOws(s[|s| - 1]) then TrimRight(s[..|s| - 1]) else s
  }

  function Trim(s: string): string { TrimRight(TrimLeft(s)) }

  ghost predicate StrippedBy(s: string, r: string, pre: string, post: string) {
    && s == pre + r + post && AllOws(pre) && AllOws(post)
    && (r != "" ==> !IsOws(r[0]) && !IsOws(r[|r| - 1]))
  }

  /** `r` is `s` without the maximal OWS at either end, and nothing else. */
  ghost predicate Stripped(s: string, r: string) { exists pre, post :: StrippedBy(s, r, pre, post) }

  lemma {:induction false} TrimLeftSplits(s: string) returns (pre: string)
    ensures s == pre + TrimLeft(s) && AllOws(pre) && (TrimLeft(s) != "" ==> !IsOws(TrimLeft(s)[0]))
  {
    if s != "" && IsOws(s[0]) {
      pre := TrimLeftSplits(s[1..]);
      pre := [s[0]] + pre;
    } else {
      pre := "";
    }
  }

  lemma {:induction false} TrimRightSplits(s: string) returns (post: string)
    ensures s == TrimRight(s) + post && AllOws(post)
    ensures TrimRight(s) != "" ==> !IsOws(TrimRight(s)[|TrimRight(s)| - 1])
    ensures TrimRight(s) <= s
    decreases |s|
  {
    if s != "" && IsOws(s[|s| - 1]) {
      post := TrimRightSplits(s[..|s| - 1]);
      post := post + [s[|s| - 1]];
    } else {
      post := "";
    }
  }

  lemma TrimStrips(s: string)
    ensures Stripped(s, Trim(s))
  {
    var pre := TrimLeftSplits(s);
    var post := TrimRightSplits(TrimLeft(s));
    assert StrippedBy(s, Trim(s), pre, post);
  }

  lemma {:induction false} TrimLeftPast(pre: string, s: string)
    requires AllOws(pre)
    ensures TrimLeft(pre + s) == TrimLeft(s)
  {
    if pre == "" {
      assert pre + s == s;
    } else {
      TrimLeftPast(pre[1..], s);
      assert (pre + s)[1..] == pre[1..] + s;
    }
  }

  lemma {:induction false} TrimRightPast(s: string, post: string)
    requires AllOws(post)
    ensures TrimRight(s + post) == TrimRight(s)
    decreases |post|
  {
    if post == "" {
      assert s + post == s;
    } else {
      TrimRightPast(s, post[..|post| - 1]);
      assert (s + post)[..|s + post| - 1] == s + post[..|post| - 1];
    }
  }

  /** Stripping has one result: the maximal OWS at both ends is determined by the value. */
  lemma StrippedIsTrim(s: string, r: string)
    requires Stripped(s, r)
    ensures r == Trim(s)
  {
    var pre, post :| StrippedBy(s, r, pre, post);
    assert s == pre + (r + post);
    TrimLeftPast(pre, r + post);
    if r == "" {
      assert r + post == post;
      TrimLeftPast(post, "");
      assert post + "" == post;
    } else {
      assert TrimLeft(r + post) == r + post;
      TrimRightPast(r, post);
    }
  }

  /** OWS added around a value is not part of it, and stripping twice is stripping once. */
  lemma TrimAround(pre: string, s: string, post: string)
    requires AllOws(pre) && AllOws(post)
    ensures Trim(pre + s + post) == Trim(s) && Trim(Trim(s)) == Trim(s)
  {
    hide TrimLeft, TrimRight, Trim;
    TrimStrips(s);
    var r := Trim(s);
    var p, q :| StrippedBy(s, r, p, q);
    StrippedWider(s, r, p, q, pre, post);
    StrippedIsTrim(pre + s + post, r);
    assert r == "" + r + "";
    assert StrippedBy(r, r, "", "");
    StrippedIsTrim(r, r);
  }

  lemma StrippedWider(s: string, r: string, p: string, q: string, pre: string, post: string)
    requires StrippedBy(s, r, p, q) && AllOws(pre) && AllOws(post)
    ensures Stripped(pre + s + post, r)
  {
    assert pre + s + post == (pre + p) + r + (q + post);
    assert StrippedBy(pre + s + post, r, pre + p, q + post);
  }

  method StripOws(value: string) returns (r: string)
    ensures Stripped(value, r)
    ensures r == Trim(value)
  {
    var start, end := 0, |value|;
    while start < end && IsOws(value[start])
      invariant 0 <= start <= end == |value| && AllOws(value[..start])
    {
      start := start + 1;
    }
    while end > start && IsOws(value[end - 1])
      invariant 0 <= start <= end <= |value| && AllOws(value[..start]) && AllOws(value[end..])
      invariant start < |value| ==> !IsOws(value[start])
    {
      end := end - 1;
    }
    r := value[start..end];
    assert StrippedBy(value, r, value[..start], value[end..]);
    StrippedIsTrim(value, r);
  }

  // ---- fields ----

  function Split(s: string, sep: char): (parts: seq<string>)
    ensures parts != []
  {
    if s == "" then [""]
    else if s[0] == sep then [""] + Split(s[1..], sep)
    else var rest := Split(s[1..], sep); [[s[0]] + rest[0]] + rest[1..]
  }

  lemma {:induction false} SplitNone(s: string, sep: char)
    ensures sep !in s <==> |Split(s, sep)| == 1
    ensures sep !in s ==> Split(s, sep) == [s]
  {
    if s != "" {
      SplitNone(s[1..], sep);
      assert s == [s[0]] + s[1..];
    }
  }

  lemma {:induction false} SplitField(a: string, sep: char, b: string)
    requires sep !in a
    ensures Split(a + [sep] + b, sep) == [a] + Split(b, sep)
  {
    var whole := a + [sep] + b;
    if a == "" {
      assert whole[1..] == b;
    } else {
      SplitField(a[1..], sep, b);
      assert whole[1..] == a[1..] + [sep] + b;
      assert a == [a[0]] + a[1..];
    }
  }

  function Join(parts: seq<string>, sep: char): string
    requires parts != []
  {
    if |parts| == 1 then parts[0] else parts[0] + [sep] + Join(parts[1..], sep)
  }

  lemma JoinEmptyFirst(rest: seq<string>, sep: char)
    requires rest != []
    ensures Join([""] + rest, sep) == [sep] + Join(rest, sep)
  {
    assert ([""] + rest)[1..] == rest;
  }

  lemma JoinLongerFirst(c: char, rest: seq<string>, sep: char)
    requires rest != []
    ensures Join([[c] + rest[0]] + rest[1..], sep) == [c] + Join(rest, sep)
  {
    var longer := [[c] + rest[0]] + rest[1..];
    if |rest| > 1 {
      assert longer[1..] == rest[1..];
      assert [c] + rest[0] + [sep] + Join(rest[1..], sep) == [c] + (rest[0] + [sep] + Join(rest[1..], sep));
    }
  }

  lemma {:induction false} SplitJoins(s: string, sep: char)
    ensures Join(Split(s, sep), sep) == s && forall p :: p in Split(s, sep) ==> sep !in p
  {
    hide Join;
    if s == "" {
      assert Join([""], sep) == "" by { JoinOne("", sep); }
    } else {
      SplitJoins(s[1..], sep);
      assert s == [s[0]] + s[1..];
      if s[0] == sep {
        JoinEmptyFirst(Split(s[1..], sep), sep);
      } else {
        JoinLongerFirst(s[0], Split(s[1..], sep), sep);
      }
    }
  }

  lemma JoinOne(p: string, sep: char)
    ensures Join([p], sep) == p
  {
  }

  lemma JoinThree(parts: seq<string>, sep: char)
    requires |parts| == 3
    ensures Join(parts, sep) == parts[0] + [sep] + parts[1] + [sep] + parts[2]
  {
    var rest := parts[1..];
    assert Join(rest[1..], sep) == parts[2];
    assert Join(rest, sep) == parts[1] + [sep] + parts[2];
    assert parts[0] + [sep] + (parts[1] + [sep] + parts[2]) == parts[0] + [sep] + parts[1] + [sep] + parts[2];
  }

  // ---- parser and printer ----

  const SEP := ';'

  datatype Identity = Identity(agentId: int, chainId: int, footprint: string)

  datatype Reason = Malformed | NonCanonical | BadFootprint

  /** A missing header is the empty one. */
  function Parse(header: Option<string>): Result<Identity, Reason> {
    var parts := Split(Trim(if header.Some? then header.value else ""), SEP);
    if |parts| != 3 then Err(Malformed)
    else if !(AllDigits(parts[0]) && AllDigits(parts[1])) then Err(NonCanonical)
    else Ok(Identity(Value(parts[0]), Value(parts[1]), parts[2]))
  }

  method ParseHeader(header: Option<string>) returns (r: Result<Identity, Reason>)
    ensures r == Parse(header)
  {
    var stripped := StripOws(if header.Some? then header.value else "");
    var parts := Split(stripped, SEP);
    if |parts| != 3 { return Err(Malformed); }
    if !(AllDigits(parts[0]) && AllDigits(parts[1])) { return Err(NonCanonical); }
    return Ok(Identity(Value(parts[0]), Value(parts[1]), parts[2]));
  }

  function IntText(n: int): string { if n < 0 then "-" + Dec(-n) else Dec(n) }

  function Format(x: Identity): string { IntText(x.agentId) + [SEP] + IntText(x.chainId) + [SEP] + x.footprint }

  function FormatIdentity(agentId: int, chainId: int, footprint: string): Result<string, Reason> {
    if agentId < 0 || chainId < 0 then Err(NonCanonical)
    else if SEP in footprint || Strip(footprint) != footprint then Err(BadFootprint)
    else
      var h := Format(Identity(agentId, chainId, footprint));
      match Parse(Some(h)) case Err(e) => Err(e) case Ok(_) => Ok(h)
  }

  lemma IntTextShape(n: int)
    ensures IntText(n) != "" && SEP !in IntText(n) && !IsOws(IntText(n)[0])
    ensures AllDigits(IntText(n)) <==> n >= 0
    ensures n >= 0 ==> Value(IntText(n)) == n
  {
    DecReadsBack(if n < 0 then -n else n);
  }

  lemma FormatSplits(x: Identity)
    ensures Split(Format(x), SEP) == [IntText(x.agentId), IntText(x.chainId)] + Split(x.footprint, SEP)
  {
    IntTextShape(x.agentId);
    IntTextShape(x.chainId);
    assert Format(x) == IntText(x.agentId) + [SEP] + (IntText(x.chainId) + [SEP] + x.footprint);
    SplitField(IntText(x.agentId), SEP, IntText(x.chainId) + [SEP] + x.footprint);
    SplitField(IntText(x.chainId), SEP, x.footprint);
  }

  predicate EndsInOws(s: string) { s != "" && IsOws(s[|s| - 1]) }

  lemma FormatTrims(x: Identity)
    ensures !EndsInOws(x.footprint) ==> Trim(Format(x)) == Format(x)
    ensures EndsInOws(x.footprint) ==> Trim(Format(x)) != Format(x)
  {
    IntTextShape(x.agentId);
    var f := Format(x);
    assert f[0] == IntText(x.agentId)[0] && TrimLeft(f) == f;
    if x.footprint != "" { assert f[|f| - 1] == x.footprint[|x.footprint| - 1]; }
    if EndsInOws(x.footprint) {
      var post := TrimRightSplits(f);
    }
  }

  lemma ParsedFootprintEnds(h: string)
    requires Parse(Some(h)).Ok?
    ensures !EndsInOws(Parse(Some(h)).value.footprint)
  {
    TrimStrips(h);
    var t := Trim(h);
    var pre, post :| StrippedBy(h, t, pre, post);
    var parts := Split(t, SEP);
    SplitJoins(t, SEP);
    JoinThree(parts, SEP);
    assert parts[2] != "" ==> t[|t| - 1] == parts[2][|parts[2]| - 1];
  }

  /** Exactly which identities their own text stands for: those with natural numbers, no separator
      in the footprint, and no OWS at its end. */
  lemma FormatReadsBackIff(x: Identity)
    ensures Parse(Some(Format(x))) == Ok(x) <==>
            x.agentId >= 0 && x.chainId >= 0 && SEP !in x.footprint && !EndsInOws(x.footprint)
  {
    hide Format, Trim, Split, Value, AllDigits;
    if EndsInOws(x.footprint) {
      if Parse(Some(Format(x))).Ok? { ParsedFootprintEnds(Format(x)); }
    } else {
      FormatTrims(x);
      FormatSplits(x);
      SplitNone(x.footprint, SEP);
      IntTextShape(x.agentId);
      IntTextShape(x.chainId);
    }
  }

  lemma StripShrinks(s: string)
    requires s != "" && IsSpace(s[|s| - 1])
    ensures Strip(s) != s
  {
    LStripSuffix(s);
    RStripPrefix(LStrip(s));
    if |LStrip(s)| == |s| { assert LStrip(s) == s; RStripPrefix(s[..|s| - 1]); }
  }

  lemma {:induction false} LStripSuffix(s: string)
    ensures |LStrip(s)| <= |s| && LStrip(s) == s[|s| - |LStrip(s)|..]
  {
    if s != "" && IsSpace(s[0]) { LStripSuffix(s[1..]); }
  }

  lemma {:induction false} RStripPrefix(s: string)
    ensures |RStrip(s)| <= |s| && RStrip(s) == s[..|RStrip(s)|]
    decreases |s|
  {
    if s != "" && IsSpace(s[|s| - 1]) { RStripPrefix(s[..|s| - 1]); }
  }

  /** Round trip: everything `format_identity` emits reads back as what it was given, with any run of
      spaces and tabs around it; and it refuses only negative numbers and footprints that hold the
      separator or surrounding whitespace. */
  lemma HeaderRoundTrip(a: int, c: int, f: string, pre: string, post: string)
    requires AllOws(pre) && AllOws(post)
    ensures FormatIdentity(a, c, f).Ok? <==> a >= 0 && c >= 0 && SEP !in f && Strip(f) == f
    ensures FormatIdentity(a, c, f).Ok? ==>
              Parse(Some(pre + FormatIdentity(a, c, f).value + post)) == Ok(Identity(a, c, f))
  {
    if a >= 0 && c >= 0 && SEP !in f && Strip(f) == f {
      if EndsInOws(f) { StripShrinks(f); }
      FormatReadsBackIff(Identity(a, c, f));
      TrimAround(pre, Format(Identity(a, c, f)), post);
    }
  }

  /** The other way round: printing what was parsed gives the header back, stripped, exactly when
      neither number had a leading zero; the parser takes "007" although its own rule asks for
      canonical decimals. */
  lemma ParsePrintsBackIff(h: string)
    requires Parse(Some(h)).Ok?
    ensures Format(Parse(Some(h)).value) == Trim(h) <==>
            Canonical(Split(Trim(h), SEP)[0]) && Canonical(Split(Trim(h), SEP)[1])
  {
    hide Trim, Split, Value, Dec, Canonical, AllDigits;
    var parts := Split(Trim(h), SEP);
    var x := Parse(Some(h)).value;
    SplitJoins(Trim(h), SEP);
    JoinThree(parts, SEP);
    FormatSplits(x);
    assert parts[2] in parts;
    SplitNone(x.footprint, SEP);
    if Canonical(parts[0]) && Canonical(parts[1]) {
      ValueWritesBack(parts[0]);
      ValueWritesBack(parts[1]);
    }
    DecIsCanonical(x.agentId);
    DecIsCanonical(x.chainId);
  }
}
