/** Filter-value patterns. The resolver turns a pattern into a Java regular
    expression by replacing every `*` with `.*` and asks for a full-string
    match. Only patterns without other regular-expression metacharacters are
    modelled (`PlainPattern`); for those, the regular expression is a
    sequence of literal characters and `.*` runs. Java's `.` does not match
    line terminators, so neither does a `*`.

    `RegexMatches` models the regular-expression match as written;
    `GlobMatches` is the independent, declarative reading of a pattern (each
    `*` is replaced by some run of characters); the two are proved to agree
    on plain patterns. */
module Glob {

  /** The characters Java's `Pattern` treats as line terminators. */
  predicate IsLineTerminator(c: char) {
    c == '\n' || c == '\r' || c == '\U{85}' || c == '\U{2028}' || c == '\U{2029}'
  }

  /** Characters with a special meaning in a Java regular expression. */
  const RegexMetacharacters: set<char> :=
    {'\\', '^', '$', '.', '|', '?', '*', '+', '(', ')', '[', ']', '{', '}'}

  /** A pattern whose only special character is `*`. */
  predicate PlainPattern(p: string) {
    forall i :: 0 <= i < |p| ==> p[i] == '*' || p[i] !in RegexMetacharacters
  }

  /** `value.replace("*", ".*")`. */
  function ToRegex(p: string): string {
    if p == [] then []
    else (if p[0] == '*' then ".*" else [p[0]]) + ToRegex(p[1..])
  }

  /** How one regular-expression atom (a literal or `.`) matches a character. */
  predicate AtomMatches(atom: char, c: char) {
    if atom == '.' then !IsLineTerminator(c) else atom == c
  }

  /** Full-string match of a regular expression built from literal atoms,
      `.` and postfix `*`. */
  predicate RegexMatches(r: string, s: string)
    decreases |r| + |s|
  {
    if r == [] then s == []
    else if |r| >= 2 && r[1] == '*' then
      RegexMatches(r[2..], s) || (s != [] && AtomMatches(r[0], s[0]) && RegexMatches(r, s[1..]))
    else
      s != [] && AtomMatches(r[0], s[0]) && RegexMatches(r[1..], s[1..])
  }

  function StarCount(p: string): nat {
    if p == [] then 0 else (if p[0] == '*' then 1 else 0) + StarCount(p[1..])
  }

  /** `value.replace("*", "")`: the literal characters of a pattern. */
  function StripStars(p: string): string {
    if p == [] then [] else (if p[0] == '*' then [] else [p[0]]) + StripStars(p[1..])
  }

  /** `String.length`: the number of UTF-16 code units, so a character
      outside the Basic Multilingual Plane counts twice (a surrogate pair). */
  function Utf16Length(s: string): nat {
    if s == [] then 0 else (if s[0] as int >= 0x1_0000 then 2 else 1) + Utf16Length(s[1..])
  }

  lemma {:induction false} Utf16LengthAppend(a: string, b: string)
    ensures Utf16Length(a + b) == Utf16Length(a) + Utf16Length(b)
  {
    if a != [] {
      var unit := if a[0] as int >= 0x1_0000 then 2 else 1;
      calc {
        Utf16Length(a + b);
        == { assert a + b != [] && (a + b)[0] == a[0] && (a + b)[1..] == a[1..] + b; }
        unit + Utf16Length(a[1..] + b);
        == { Utf16LengthAppend(a[1..], b); }
        unit + Utf16Length(a[1..]) + Utf16Length(b);
      }
    } else {
      assert a + b == b;
    }
  }

  /** A string is one to two code units per character, and exactly one per
      character iff it lies in the Basic Multilingual Plane. */
  lemma {:induction false} Utf16LengthBounds(s: string)
    ensures |s| <= Utf16Length(s) <= 2 * |s|
    ensures Utf16Length(s) == |s| <==> forall i :: 0 <= i < |s| ==> s[i] as int < 0x1_0000
  {
    if s != [] {
      Utf16LengthBounds(s[1..]);
      assert forall i :: 0 <= i < |s[1..]| ==> s[1..][i] == s[i + 1];
    }
  }

  /** The specificity the resolver ranks patterns by:
      `value.replace("*", "").length()`. */
  function Specificity(p: string): nat {
    Utf16Length(StripStars(p))
  }

  /** Every code unit of a pattern is either a star or counts towards its
      specificity, so the rank is the pattern's Java length less its stars. */
  lemma {:induction false} SpecificityCountsLiterals(p: string)
    ensures Specificity(p) + StarCount(p) == Utf16Length(p)
  {
    if p != [] {
      SpecificityCountsLiterals(p[1..]);
      var head := if p[0] == '*' then [] else [p[0]];
      assert StripStars(p) == head + StripStars(p[1..]);
      Utf16LengthAppend(head, StripStars(p[1..]));
      assert [p[0]][1..] == [];
    }
  }

  /** A character outside the Basic Multilingual Plane ranks as two, like
      two letters, so `*\U{1F600}*` and `*ab*` tie. */
  lemma SupplementaryCharacterRanksTwo()
    ensures Specificity("*\U{1F600}*") == 2
    ensures Specificity("*ab*") == 2
  {
    assert StripStars("*\U{1F600}*") == "\U{1F600}";
    assert StripStars("*ab*") == "ab";
  }

  /** A run of characters a `*` may stand for. */
  predicate IsRun(t: string) {
    forall i :: 0 <= i < |t| ==> !IsLineTerminator(t[i])
  }

  /** The string obtained by replacing the k-th `*` of `p` with `fills[k]`. */
  function Instantiate(p: string, fills: seq<string>): string
    requires |fills| == StarCount(p)
  {
    if p == [] then []
    else if p[0] == '*' then fills[0] + Instantiate(p[1..], fills[1..])
    else [p[0]] + Instantiate(p[1..], fills)
  }

  /** The declarative meaning of a pattern: some choice of runs for its
      stars spells out exactly `s`. */
  ghost predicate GlobMatches(p: string, s: string) {
    exists fills: seq<string> ::
      |fills| == StarCount(p) && (forall k :: 0 <= k < |fills| ==> IsRun(fills[k])) && Instantiate(p, fills) == s
  }

  /** The literal characters of a pattern all appear in a string it spells
      out, so a pattern never matches a value shorter than its specificity. */
  lemma {:induction false} InstantiateLength(p: string, fills: seq<string>)
    requires |fills| == StarCount(p)
    ensures Utf16Length(Instantiate(p, fills)) >= Specificity(p)
  {
    if p != [] {
      if p[0] == '*' {
        InstantiateLength(p[1..], fills[1..]);
        Utf16LengthAppend(fills[0], Instantiate(p[1..], fills[1..]));
        assert StripStars(p) == StripStars(p[1..]);
      } else {
        InstantiateLength(p[1..], fills);
        Utf16LengthAppend([p[0]], Instantiate(p[1..], fills));
        Utf16LengthAppend([p[0]], StripStars(p[1..]));
      }
    }
  }

  lemma SpecificityBoundsMatch(p: string, s: string)
    requires GlobMatches(p, s)
    ensures Specificity(p) <= Utf16Length(s)
  {
    var fills :| |fills| == StarCount(p) && (forall k :: 0 <= k < |fills| ==> IsRun(fills[k])) && Instantiate(p, fills) == s;
    InstantiateLength(p, fills);
  }

  /** A pattern that is a star-free literal followed by one `*` spells out
      the literal followed by whatever run fills the star. */
  lemma {:induction false} GlobPrefixStar(lit: string, run: string)
    requires forall i :: 0 <= i < |lit| ==> lit[i] != '*'
    ensures StarCount(lit + "*") == 1
    ensures Instantiate(lit + "*", [run]) == lit + run
  {
    var p := lit + "*";
    if lit == [] {
      assert p == "*" && p[1..] == [] && [run][1..] == [];
      assert Instantiate(p, [run]) == run + Instantiate([], []);
    } else {
      var tail := lit[1..];
      GlobPrefixStar(tail, run);
      assert p[0] == lit[0] != '*';
      assert p[1..] == tail + "*";
      assert StarCount(p) == StarCount(tail + "*");
      assert Instantiate(p, [run]) == [lit[0]] + Instantiate(tail + "*", [run]);
      assert lit + run == [lit[0]] + (tail + run);
    }
  }

  lemma ToRegexShape(p: string)
    requires p != []
    ensures p[0] == '*' ==> ToRegex(p) == ".*" + ToRegex(p[1..])
    ensures p[0] != '*' ==> ToRegex(p) == [p[0]] + ToRegex(p[1..])
    ensures ToRegex(p)[0] != '*'
  {
  }

  /** A literal atom never sits in front of a `*` that was produced from the
      pattern. */
  lemma LiteralNotStarred(p: string)
    requires p != [] && p[0] != '*'
    ensures |ToRegex(p)| >= 2 ==> ToRegex(p)[1] != '*'
  {
    ToRegexShape(p);
    if p[1..] != [] {
      ToRegexShape(p[1..]);
    }
  }

  /** `.*` in front of a regular expression absorbs any run. */
  lemma {:induction false} StarAbsorbsRun(r: string, u: string, t: string)
    requires IsRun(u)
    requires RegexMatches(r, t)
    ensures RegexMatches(".*" + r, u + t)
    decreases |u|
  {
    var rr := ".*" + r;
    assert rr[2..] == r;
    if u == [] {
      assert u + t == t;
    } else {
      assert IsRun(u[1..]);
      StarAbsorbsRun(r, u[1..], t);
      assert (u + t)[1..] == u[1..] + t;
    }
  }

  /** Every string the pattern spells out is matched by its regular expression. */
  lemma {:induction false} GlobImpliesRegex(p: string, fills: seq<string>)
    requires PlainPattern(p)
    requires |fills| == StarCount(p)
    requires forall k :: 0 <= k < |fills| ==> IsRun(fills[k])
    ensures RegexMatches(ToRegex(p), Instantiate(p, fills))
  {
    if p != [] {
      ToRegexShape(p);
      assert PlainPattern(p[1..]) by {
        forall i | 0 <= i < |p[1..]| ensures p[1..][i] == '*' || p[1..][i] !in RegexMetacharacters {
          assert p[1..][i] == p[i + 1];
        }
      }
      if p[0] == '*' {
        assert IsRun(fills[0]);
        GlobImpliesRegex(p[1..], fills[1..]);
        StarAbsorbsRun(ToRegex(p[1..]), fills[0], Instantiate(p[1..], fills[1..]));
      } else {
        assert p[0] != '.' by { assert p[0] !in RegexMetacharacters; }
        GlobImpliesRegex(p[1..], fills);
        LiteralNotStarred(p);
        var r := ToRegex(p);
        var s := Instantiate(p, fills);
        assert r[1..] == ToRegex(p[1..]);
        assert s[1..] == Instantiate(p[1..], fills);
      }
    }
  }

  /** Every string the regular expression matches is spelled out by the
      pattern for some choice of runs. */
  lemma {:induction false} RegexImpliesGlob(p: string, s: string) returns (fills: seq<string>)
    requires PlainPattern(p)
    requires RegexMatches(ToRegex(p), s)
    ensures |fills| == StarCount(p)
    ensures forall k :: 0 <= k < |fills| ==> IsRun(fills[k])
    ensures Instantiate(p, fills) == s
    decreases |p| + |s|
  {
    if p == [] {
      fills := [];
    } else {
      ToRegexShape(p);
      assert PlainPattern(p[1..]) by {
        forall i | 0 <= i < |p[1..]| ensures p[1..][i] == '*' || p[1..][i] !in RegexMetacharacters {
          assert p[1..][i] == p[i + 1];
        }
      }
      var r := ToRegex(p);
      if p[0] == '*' {
        assert r[2..] == ToRegex(p[1..]);
        if RegexMatches(ToRegex(p[1..]), s) {
          var rest := RegexImpliesGlob(p[1..], s);
          fills := [""] + rest;
          assert fills[1..] == rest;
        } else {
          assert s != [] && AtomMatches('.', s[0]) && RegexMatches(r, s[1..]);
          var tail := RegexImpliesGlob(p, s[1..]);
          fills := [[s[0]] + tail[0]] + tail[1..];
          assert fills[1..] == tail[1..];
          assert Instantiate(p, tail) == tail[0] + Instantiate(p[1..], tail[1..]);
          assert s == [s[0]] + s[1..];
        }
      } else {
        LiteralNotStarred(p);
        assert r[1..] == ToRegex(p[1..]);
        assert p[0] != '.' by { assert p[0] !in RegexMetacharacters; }
        fills := RegexImpliesGlob(p[1..], s[1..]);
        assert s == [s[0]] + s[1..];
      }
    }
  }

  /** On plain patterns, the regular expression the resolver builds matches
      exactly the strings the pattern spells out. */
  lemma RegexAgreesWithGlob(p: string, s: string)
    requires PlainPattern(p)
    ensures RegexMatches(ToRegex(p), s) <==> GlobMatches(p, s)
  {
    if RegexMatches(ToRegex(p), s) {
      var fills := RegexImpliesGlob(p, s);
      assert Instantiate(p, fills) == s;
    }
    if GlobMatches(p, s) {
      var fills :| |fills| == StarCount(p) && (forall k :: 0 <= k < |fills| ==> IsRun(fills[k])) && Instantiate(p, fills) == s;
      GlobImpliesRegex(p, fills);
    }
  }
}
