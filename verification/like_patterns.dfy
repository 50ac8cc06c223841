/** The LIKE and ILIKE matching that the filter compiler and the tenant clean-up delegate to PostgreSQL:
    `%` stands for any run of characters, `_` for any one, and `\` takes the next character literally. */
module LikePatterns {
  import opened Collections

  datatype Token = AnyRun | AnyOne | Exactly(c: char)

  /** A pattern that ends in an escape character has no meaning; PostgreSQL refuses it. */
  function Parse(pattern: string): Option<seq<Token>> {
    if pattern == "" then Some([])
    else if pattern[0] == '\\' && |pattern| == 1 then None
    else
      var token := if pattern[0] == '%' then AnyRun
                   else if pattern[0] == '_' then AnyOne
                   else if pattern[0] == '\\' then Exactly(pattern[1])
                   else Exactly(pattern[0]);
      match Parse(pattern[if pattern[0] == '\\' then 2 else 1..])
      case None => None
      case Some(rest) => Some([token] + rest)
  }

  predicate Matches(tokens: seq<Token>, s: string)
    decreases |tokens| + |s|
  {
    if tokens == [] then s == ""
    else match tokens[0]
      case AnyRun => Matches(tokens[1..], s) || (s != "" && Matches(tokens, s[1..]))
      case AnyOne => s != "" && Matches(tokens[1..], s[1..])
      case Exactly(c) => s != "" && s[0] == c && Matches(tokens[1..], s[1..])
  }

  /** What one token stands for. */
  lemma OneToken(token: Token, s: string)
    ensures Matches([token], s) <==> match token
                                     case AnyRun => true
                                     case AnyOne => |s| == 1
                                     case Exactly(c) => s == [c]
  {
    if token.AnyRun? && s != "" {
      OneToken(token, s[1..]);
    }
  }

  predicate Like(s: string, pattern: string) {
    Parse(pattern).Some? && Matches(Parse(pattern).value, s)
  }

  function LowerChar(c: char): char {
    if 'A' <= c <= 'Z' then (c as int + 32) as char else c
  }

  /** ASCII letters are folded, and nothing else. */
  lemma LowerIs(c: char)
    ensures LowerChar(c) as int == if 65 <= c as int <= 90 then c as int + 32 else c as int
  {
  }

  function Lower(s: string): string {
    Map(s, LowerChar)
  }

  predicate ILike(s: string, pattern: string) {
    Like(Lower(s), Lower(pattern))
  }

  // ---- what the three pattern shapes are meant to say ----

  ghost predicate ContainsAt(s: string, v: string, i: nat) {
    i + |v| <= |s| && s[i..i + |v|] == v
  }

  ghost predicate Contains(s: string, v: string) {
    exists i :: ContainsAt(s, v, i)
  }

  ghost predicate StartsWith(s: string, v: string) {
    ContainsAt(s, v, 0)
  }

  ghost predicate EndsWith(s: string, v: string) {
    |v| <= |s| && ContainsAt(s, v, |s| - |v|)
  }

  predicate Special(c: char) {
    c == '%' || c == '_' || c == '\\'
  }

  /** A value without wildcards and escapes. */
  predicate Plain(v: string) {
    forall c :: c in v ==> !Special(c)
  }

  function Literal(v: string): seq<Token> {
    Map(v, c => Exactly(c))
  }

  lemma {:induction false} PlainParses(v: string, suffix: string)
    requires Plain(v) && (suffix == "" || suffix == "%")
    ensures Parse(v + suffix) == Some(Literal(v) + if suffix == "" then [] else [AnyRun])
  {
    var tail: seq<Token> := if suffix == "" then [] else [AnyRun];
    if v == "" {
      assert v + suffix == suffix;
      assert suffix == "%" ==> suffix[1..] == "";
      PercentParses("");
      assert "%" + "" == "%" && [AnyRun] + [] == [AnyRun];
      assert Literal(v) + tail == tail;
    } else {
      assert v[0] in v;
      assert (v + suffix)[1..] == v[1..] + suffix;
      PlainParses(v[1..], suffix);
      assert Literal(v) == [Exactly(v[0])] + Literal(v[1..]);
      assert Literal(v) + tail == [Exactly(v[0])] + (Literal(v[1..]) + tail);
    }
  }

  lemma StartsWithStep(s: string, v: string)
    requires v != "" && s != ""
    ensures StartsWith(s, v) <==> s[0] == v[0] && StartsWith(s[1..], v[1..])
    ensures |v| <= |s| ==> s[|v|..] == s[1..][|v| - 1..]
  {
    assert v == [v[0]] + v[1..];
    if |v| <= |s| {
      assert s[0..|v|] == [s[0]] + s[1..][0..|v| - 1];
    }
  }

  lemma {:induction false} LiteralMatches(v: string, rest: seq<Token>, s: string)
    ensures Matches(Literal(v) + rest, s) <==> StartsWith(s, v) && Matches(rest, s[|v|..])
  {
    if v == "" {
      assert Literal(v) + rest == rest;
      assert s[0..] == s;
    } else {
      var tokens := Literal(v) + rest;
      assert tokens[0] == Exactly(v[0]) && tokens[1..] == Literal(v[1..]) + rest;
      if s != "" {
        StartsWithStep(s, v);
        LiteralMatches(v[1..], rest, s[1..]);
      }
    }
  }

  lemma {:induction false} AnyRunMatches(rest: seq<Token>, s: string)
    ensures Matches([AnyRun] + rest, s) <==> exists i :: 0 <= i <= |s| && Matches(rest, s[i..])
  {
    assert ([AnyRun] + rest)[1..] == rest;
    assert s[0..] == s;
    if s != "" {
      AnyRunMatches(rest, s[1..]);
      forall i | 1 <= i <= |s| ensures s[i..] == s[1..][i - 1..] {
      }
      if i :| 0 <= i <= |s[1..]| && Matches(rest, s[1..][i..]) {
        assert Matches(rest, s[i + 1..]);
      }
      if i :| 0 <= i <= |s| && Matches(rest, s[i..]) && i > 0 {
        assert Matches(rest, s[1..][i - 1..]);
      }
    }
  }

  /** Tokens in a row stand for what the first one does, followed by what the others do. */
  lemma TokensAre(token: Token, rest: seq<Token>, s: string)
    ensures Matches([token] + rest, s)
            <==> exists i :: 0 <= i <= |s| && Matches([token], s[..i]) && Matches(rest, s[i..])
  {
    var tokens := [token] + rest;
    assert tokens[1..] == rest;
    forall i | 0 <= i <= |s| ensures Matches([token], s[..i]) <==> match token
                                                                  case AnyRun => true
                                                                  case AnyOne => i == 1
                                                                  case Exactly(c) => i == 1 && s[0] == c
    {
      OneToken(token, s[..i]);
    }
    if token.AnyRun? {
      AnyRunMatches(rest, s);
    } else if s != "" {
      assert s[..1] == [s[0]];
    }
  }

  lemma AnyTailMatches(s: string)
    ensures Matches([AnyRun], s)
  {
    AnyRunMatches([], s);
    assert [AnyRun] + [] == [AnyRun];
    assert s[|s|..] == "";
  }

  lemma PlainStartsWith(v: string, s: string)
    requires Plain(v)
    ensures Like(s, v + "%") <==> StartsWith(s, v)
  {
    PlainParses(v, "%");
    LiteralMatches(v, [AnyRun], s);
    if StartsWith(s, v) {
      AnyTailMatches(s[|v|..]);
    }
  }

  predicate HasPrefixPattern(s: string, v: string) {
    Like(s, v + "%")
  }

  lemma PlainPrefix(v: string, s: string)
    requires Plain(v)
    ensures HasPrefixPattern(s, v) <==> v <= s
  {
    PlainStartsWith(v, s);
    assert |v| <= |s| ==> s[0..|v|] == s[..|v|];
  }

  lemma PercentParses(pattern: string)
    ensures Parse("%" + pattern) == match Parse(pattern) case None => None case Some(ts) => Some([AnyRun] + ts)
  {
    assert ("%" + pattern)[1..] == pattern;
  }

  lemma PlainContains(v: string, s: string)
    requires Plain(v)
    ensures Like(s, "%" + v + "%") <==> Contains(s, v)
  {
    PlainParses(v, "%");
    PercentParses(v + "%");
    assert "%" + v + "%" == "%" + (v + "%");
    AnyRunMatches(Literal(v) + [AnyRun], s);
    forall i | 0 <= i <= |s|
      ensures Matches(Literal(v) + [AnyRun], s[i..]) <==> ContainsAt(s, v, i)
    {
      LiteralMatches(v, [AnyRun], s[i..]);
      if StartsWith(s[i..], v) {
        AnyTailMatches(s[i..][|v|..]);
      }
    }
  }

  lemma PlainEndsWith(v: string, s: string)
    requires Plain(v)
    ensures Like(s, "%" + v) <==> EndsWith(s, v)
  {
    PlainParses(v, "");
    assert v + "" == v && Literal(v) + [] == Literal(v);
    PercentParses(v);
    AnyRunMatches(Literal(v), s);
    forall i | 0 <= i <= |s|
      ensures Matches(Literal(v), s[i..]) <==> EndsWith(s, v) && i == |s| - |v|
    {
      LiteralMatches(v, [], s[i..]);
    }
    if EndsWith(s, v) {
      assert Matches(Literal(v), s[|s| - |v|..]);
    }
  }

  // ---- a value with a wildcard or an escape always changes the meaning ----

  function Sample(tokens: seq<Token>): string {
    if tokens == [] then ""
    else match tokens[0]
      case AnyRun => Sample(tokens[1..])
      case AnyOne => "x" + Sample(tokens[1..])
      case Exactly(c) => [c] + Sample(tokens[1..])
  }

  lemma {:induction false} SampleMatches(tokens: seq<Token>)
    ensures Matches(tokens, Sample(tokens))
  {
    if tokens != [] {
      SampleMatches(tokens[1..]);
      var rest := Sample(tokens[1..]);
      assert tokens[0].AnyOne? ==> Sample(tokens)[1..] == rest;
      assert tokens[0].Exactly? ==> Sample(tokens)[1..] == rest;
    }
  }

  lemma EscapedPercent(pattern: string)
    requires |pattern| == 2 && pattern[0] == '\\' && pattern[1] == '%'
    ensures Parse(pattern).Some? && Sample(Parse(pattern).value) == "%"
  {
    assert pattern[2..] == "";
    var tokens := [Exactly('%')];
    assert Parse(pattern) == Some(tokens) by {
      assert [Exactly('%')] + [] == tokens;
    }
    assert tokens[1..] == [];
    assert Sample(tokens) == ['%'] + Sample([]);
  }

  /** The sample of the pattern built from `v` is no longer than `v`, and is `v` only when `v` is plain. */
  lemma {:induction false} SampleDiffers(v: string, suffix: string)
    requires suffix == "" || suffix == "%"
    ensures suffix == "%" ==> Parse(v + suffix).Some?
    ensures Parse(v + suffix).Some? ==>
              |Sample(Parse(v + suffix).value)| <= |v| && (Sample(Parse(v + suffix).value) == v ==> Plain(v))
  {
    var pattern := v + suffix;
    if v == "" {
      assert pattern == suffix;
      assert suffix == "%" ==> suffix[1..] == "";
    } else if v[0] != '\\' {
      assert pattern[1..] == v[1..] + suffix;
      SampleDiffers(v[1..], suffix);
      assert v == [v[0]] + v[1..];
    } else if |v| == 1 {
      if suffix == "%" {
        EscapedPercent(pattern);
      }
    } else {
      assert pattern[2..] == v[2..] + suffix;
      SampleDiffers(v[2..], suffix);
    }
  }

  lemma SampleNotContained(s: string, v: string)
    requires |s| <= |v| && (s == v ==> Plain(v)) && !Plain(v)
    ensures !Contains(s, v)
  {
  }

  // ---- folding to lower case ----

  predicate IsLower(s: string) {
    Lower(s) == s
  }

  lemma LowerTwice(s: string)
    ensures IsLower(Lower(s))
  {
  }

  lemma LowerParts(s: string, t: string)
    ensures IsLower(s + t) <==> IsLower(s) && IsLower(t)
  {
    assert Lower(s + t) == Lower(s) + Lower(t);
    assert (s + t)[..|s|] == s && (s + t)[|s|..] == t;
    assert Lower(s + t)[..|s|] == Lower(s) && Lower(s + t)[|s|..] == Lower(t);
  }

  lemma LowerKeepsPlain(v: string)
    ensures Plain(Lower(v)) <==> Plain(v)
  {
    forall i | 0 <= i < |v| ensures Special(Lower(v)[i]) <==> Special(v[i]) {
    }
    if Plain(Lower(v)) {
      forall c | c in v ensures !Special(c) {
        var i :| 0 <= i < |v| && v[i] == c;
        assert Lower(v)[i] in Lower(v);
      }
    }
  }

  /** A pattern in lower case has a sample in lower case. */
  lemma {:induction false} SampleIsLower(pattern: string)
    requires IsLower(pattern) && Parse(pattern).Some?
    ensures IsLower(Sample(Parse(pattern).value))
  {
    if pattern != "" {
      var skip := if pattern[0] == '\\' then 2 else 1;
      assert pattern == pattern[..skip] + pattern[skip..];
      LowerParts(pattern[..skip], pattern[skip..]);
      SampleIsLower(pattern[skip..]);
      var tokens := Parse(pattern).value;
      var rest := Sample(tokens[1..]);
      assert tokens[1..] == Parse(pattern[skip..]).value;
      assert tokens[0].Exactly? ==> LowerChar(tokens[0].c) == tokens[0].c by {
        assert Lower(pattern)[0] == pattern[0];
        assert skip == 2 ==> Lower(pattern)[1] == pattern[1];
      }
      assert tokens[0].Exactly? ==>
          Sample(tokens) == [tokens[0].c] + rest && Lower(Sample(tokens)) == [LowerChar(tokens[0].c)] + Lower(rest);
      assert tokens[0].AnyOne? ==> Sample(tokens) == "x" + rest && Lower(Sample(tokens)) == "x" + Lower(rest);
    }
  }

  // ---- exactly when the patterns mean what they are for ----

  /** A string on which the pattern of `contains` goes wrong. */
  lemma WrongContains(v: string) returns (s: string)
    requires !Plain(v)
    ensures Like(s, "%" + v + "%") && !Contains(s, v)
    ensures IsLower(v) ==> IsLower(s)
  {
    SampleDiffers(v, "%");
    PercentParses(v + "%");
    assert "%" + v + "%" == "%" + (v + "%");
    var tokens := [AnyRun] + Parse(v + "%").value;
    SampleMatches(tokens);
    assert tokens[1..] == Parse(v + "%").value;
    SampleNotContained(Sample(tokens), v);
    LowerParts(v, "%");
    if IsLower(v) {
      assert IsLower("%");
      SampleIsLower(v + "%");
    }
    s := Sample(tokens);
  }

  lemma WrongStartsWith(v: string) returns (s: string)
    requires !Plain(v)
    ensures Like(s, v + "%") && !StartsWith(s, v)
    ensures IsLower(v) ==> IsLower(s)
  {
    SampleDiffers(v, "%");
    SampleMatches(Parse(v + "%").value);
    s := Sample(Parse(v + "%").value);
    SampleNotContained(s, v);
    LowerParts(v, "%");
    if IsLower(v) {
      assert IsLower("%");
      SampleIsLower(v + "%");
    }
  }

  lemma WrongEndsWith(v: string) returns (s: string)
    requires !Plain(v)
    ensures Like(s, "%" + v) != EndsWith(s, v)
    ensures IsLower(v) ==> IsLower(s)
  {
    SampleDiffers(v, "");
    assert v + "" == v;
    PercentParses(v);
    if Parse(v).None? {
      s := v;
      assert EndsWith(v, v);
    } else {
      var tokens := [AnyRun] + Parse(v).value;
      SampleMatches(tokens);
      assert tokens[1..] == Parse(v).value;
      s := Sample(tokens);
      SampleNotContained(s, v);
      if IsLower(v) {
        SampleIsLower(v);
      }
    }
  }

  /** The pattern of `contains` means substring, on all strings, exactly for the plain values. */
  lemma ContainsExactly(v: string)
    ensures (forall s :: Like(s, "%" + v + "%") <==> Contains(s, v)) <==> Plain(v)
  {
    if Plain(v) {
      forall s ensures Like(s, "%" + v + "%") <==> Contains(s, v) {
        PlainContains(v, s);
      }
    } else {
      var s := WrongContains(v);
    }
  }

  /** The pattern of `starts_with` means prefix exactly for the plain values. */
  lemma StartsWithExactly(v: string)
    ensures (forall s :: Like(s, v + "%") <==> StartsWith(s, v)) <==> Plain(v)
  {
    if Plain(v) {
      forall s ensures Like(s, v + "%") <==> StartsWith(s, v) {
        PlainStartsWith(v, s);
      }
    } else {
      var s := WrongStartsWith(v);
    }
  }

  /** The pattern of `ends_with` means suffix exactly for the plain values. */
  lemma EndsWithExactly(v: string)
    ensures (forall s :: Like(s, "%" + v) <==> EndsWith(s, v)) <==> Plain(v)
  {
    if Plain(v) {
      forall s ensures Like(s, "%" + v) <==> EndsWith(s, v) {
        PlainEndsWith(v, s);
      }
    } else {
      var s := WrongEndsWith(v);
    }
  }

  lemma ContainsFolded(v: string, s: string)
    requires Plain(v)
    ensures ILike(s, "%" + v + "%") <==> Contains(Lower(s), Lower(v))
  {
    assert Lower("%" + v + "%") == "%" + Lower(v) + "%";
    LowerKeepsPlain(v);
    PlainContains(Lower(v), Lower(s));
  }

  lemma WrongContainsFolded(v: string) returns (s: string)
    requires !Plain(v)
    ensures ILike(s, "%" + v + "%") != Contains(Lower(s), Lower(v))
  {
    assert Lower("%" + v + "%") == "%" + Lower(v) + "%";
    LowerKeepsPlain(v);
    LowerTwice(v);
    s := WrongContains(Lower(v));
  }

  lemma StartsWithFolded(v: string, s: string)
    requires Plain(v)
    ensures ILike(s, v + "%") <==> StartsWith(Lower(s), Lower(v))
  {
    assert Lower(v + "%") == Lower(v) + "%";
    LowerKeepsPlain(v);
    PlainStartsWith(Lower(v), Lower(s));
  }

  lemma WrongStartsWithFolded(v: string) returns (s: string)
    requires !Plain(v)
    ensures ILike(s, v + "%") != StartsWith(Lower(s), Lower(v))
  {
    assert Lower(v + "%") == Lower(v) + "%";
    LowerKeepsPlain(v);
    LowerTwice(v);
    s := WrongStartsWith(Lower(v));
  }

  lemma EndsWithFolded(v: string, s: string)
    requires Plain(v)
    ensures ILike(s, "%" + v) <==> EndsWith(Lower(s), Lower(v))
  {
    assert Lower("%" + v) == "%" + Lower(v);
    LowerKeepsPlain(v);
    PlainEndsWith(Lower(v), Lower(s));
  }

  lemma WrongEndsWithFolded(v: string) returns (s: string)
    requires !Plain(v)
    ensures ILike(s, "%" + v) != EndsWith(Lower(s), Lower(v))
  {
    assert Lower("%" + v) == "%" + Lower(v);
    LowerKeepsPlain(v);
    LowerTwice(v);
    s := WrongEndsWith(Lower(v));
  }

  /** The same three for ILIKE, up to the case of the letters. */
  lemma ContainsFoldedExactly(v: string)
    ensures (forall s :: ILike(s, "%" + v + "%") <==> Contains(Lower(s), Lower(v))) <==> Plain(v)
  {
    if Plain(v) {
      forall s ensures ILike(s, "%" + v + "%") <==> Contains(Lower(s), Lower(v)) {
        ContainsFolded(v, s);
      }
    } else {
      var s := WrongContainsFolded(v);
    }
  }

  lemma StartsWithFoldedExactly(v: string)
    ensures (forall s :: ILike(s, v + "%") <==> StartsWith(Lower(s), Lower(v))) <==> Plain(v)
  {
    if Plain(v) {
      forall s ensures ILike(s, v + "%") <==> StartsWith(Lower(s), Lower(v)) {
        StartsWithFolded(v, s);
      }
    } else {
      var s := WrongStartsWithFolded(v);
    }
  }

  lemma EndsWithFoldedExactly(v: string)
    ensures (forall s :: ILike(s, "%" + v) <==> EndsWith(Lower(s), Lower(v))) <==> Plain(v)
  {
    if Plain(v) {
      forall s ensures ILike(s, "%" + v) <==> EndsWith(Lower(s), Lower(v)) {
        EndsWithFolded(v, s);
      }
    } else {
      var s := WrongEndsWithFolded(v);
    }
  }
}
