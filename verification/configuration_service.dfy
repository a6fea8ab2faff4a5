/** Configuration resolution (`findConfigurationsByRequestContext`). The
    storage query that fetches the candidates for a filter key is a
    parameter `fetch`; the resolver is a pure function of the request
    context and what `fetch` returns for the extracted key. */
module ConfigurationService {
  import opened Base
  import opened Domain
  import opened Api
  import opened Glob

  /** The filter key of a request context; absent when the context, its
      filter or the key is missing. */
  function RequestFilterKey(ctx: Option<RequestContext>): Option<string> {
    if ctx.Some? && ctx.value.filter.Some? then ctx.value.filter.value.key else None
  }

  /** The filter value of a request context; absent when the context, its
      filter or the value is missing. */
  function RequestFilterValue(ctx: Option<RequestContext>): Option<string> {
    if ctx.Some? && ctx.value.filter.Some? then ctx.value.filter.value.value else None
  }

  /** A catch-all configuration: no filter, or a filter without a value. */
  predicate IsCatchAll(c: Configuration) {
    c.filter.None? || c.filter.value.value.None?
  }

  /** A configuration whose pattern, turned into a regular expression,
      matches the whole value. */
  predicate MatchesValue(value: string, c: Configuration) {
    Pattern(c).Some? && RegexMatches(ToRegex(Pattern(c).value), value)
  }

  /** The specificity of a configuration's pattern (0 without one). */
  function Rank(c: Configuration): nat {
    if Pattern(c).Some? then Specificity(Pattern(c).value) else 0
  }

  /** The patterns the resolver may evaluate are plain. */
  predicate HasPlainPattern(c: Configuration) {
    Pattern(c).None? || PlainPattern(Pattern(c).value)
  }

  /** The no-value path: the first catch-all candidate. */
  function FirstCatchAll(cs: seq<Configuration>): (r: Option<Configuration>)
    ensures r.None? <==> forall i :: 0 <= i < |cs| ==> !IsCatchAll(cs[i])
    ensures r.Some? ==> exists i :: 0 <= i < |cs| && cs[i] == r.value && IsCatchAll(cs[i]) &&
                                  forall j :: 0 <= j < i ==> !IsCatchAll(cs[j])
  {
    if cs == [] then None
    else if IsCatchAll(cs[0]) then Some(cs[0])
    else
      var r := FirstCatchAll(cs[1..]);
      assert forall j :: 1 <= j < |cs| ==> cs[j] == cs[1..][j - 1];
      r
  }

  /** The candidates whose pattern matches the value, in order. */
  function Matching(value: string, cs: seq<Configuration>): seq<Configuration>
  {
    if cs == [] then []
    else (if MatchesValue(value, cs[0]) then [cs[0]] else []) + Matching(value, cs[1..])
  }

  /** `Stream.max` with a comparator on specificity: a left fold that keeps
      the accumulated element unless the next one ranks strictly higher. */
  function MaxByRank(acc: Configuration, rest: seq<Configuration>): Configuration
    decreases |rest|
  {
    if rest == [] then acc
    else MaxByRank(if Rank(acc) >= Rank(rest[0]) then acc else rest[0], rest[1..])
  }

  /** The with-value path: the most specific matching candidate. */
  function MostSpecificMatch(value: string, cs: seq<Configuration>): Option<Configuration>
  {
    var m := Matching(value, cs);
    if m == [] then None else Some(MaxByRank(m[0], m[1..]))
  }

  /** `findConfigurationsByRequestContext`. */
  function FindConfiguration(ctx: Option<RequestContext>, fetch: Option<string> -> seq<Configuration>): (r: Option<Configuration>)
    requires RequestFilterValue(ctx).Some? ==>
               forall c :: c in fetch(RequestFilterKey(ctx)) ==> HasPlainPattern(c)
    ensures r.Some? ==> r.value in fetch(RequestFilterKey(ctx))
    ensures RequestFilterValue(ctx).None? ==> r == FirstCatchAll(fetch(RequestFilterKey(ctx)))
    ensures RequestFilterValue(ctx).Some? ==> r == MostSpecificMatch(RequestFilterValue(ctx).value, fetch(RequestFilterKey(ctx)))
  {
    var candidates := fetch(RequestFilterKey(ctx));
    match RequestFilterValue(ctx)
    case None => FirstCatchAll(candidates)
    case Some(value) =>
      MostSpecificIsMaximal(value, candidates);
      MostSpecificMatch(value, candidates)
  }

  // ---------------------------------------------------------------------
  // Properties of the with-value path.

  /** Folding one more element keeps the accumulated one unless the new
      element ranks strictly higher. */
  lemma {:induction false} MaxByRankSnoc(acc: Configuration, rest: seq<Configuration>, x: Configuration)
    ensures MaxByRank(acc, rest + [x]) ==
              var r := MaxByRank(acc, rest); if Rank(r) >= Rank(x) then r else x
    decreases |rest|
  {
    if rest == [] {
      assert rest + [x] == [x];
      assert ([x])[1..] == [];
    } else {
      var next := if Rank(acc) >= Rank(rest[0]) then acc else rest[0];
      assert (rest + [x])[0] == rest[0];
      assert (rest + [x])[1..] == rest[1..] + [x];
      MaxByRankSnoc(next, rest[1..], x);
    }
  }

  lemma {:induction false} MatchingSnoc(value: string, init: seq<Configuration>, x: Configuration)
    ensures Matching(value, init + [x]) ==
              Matching(value, init) + (if MatchesValue(value, x) then [x] else [])
    decreases |init|
  {
    if init == [] {
      assert init + [x] == [x];
      assert ([x])[1..] == [];
    } else {
      var head := if MatchesValue(value, init[0]) then [init[0]] else [];
      var tail := if MatchesValue(value, x) then [x] else [];
      assert (init + [x])[0] == init[0];
      assert (init + [x])[1..] == init[1..] + [x];
      MatchingSnoc(value, init[1..], x);
      var m := Matching(value, init[1..]);
      assert Matching(value, init + [x]) == head + (m + tail);
      assert head + (m + tail) == (head + m) + tail;
    }
  }

  /** The match list holds exactly the matching candidates. */
  lemma {:induction false} MatchingMembers(value: string, cs: seq<Configuration>)
    ensures forall c :: c in Matching(value, cs) <==> c in cs && MatchesValue(value, c)
  {
    if cs != [] {
      MatchingMembers(value, cs[1..]);
      assert forall c :: c in cs <==> c == cs[0] || c in cs[1..];
    }
  }

  /** With a value there is no result exactly when no candidate matches. */
  lemma NoMatchNoResult(value: string, cs: seq<Configuration>)
    ensures MostSpecificMatch(value, cs).None? <==> forall c :: c in cs ==> !MatchesValue(value, c)
  {
    MatchingMembers(value, cs);
    var m := Matching(value, cs);
    if m != [] {
      assert m[0] in m;
    }
  }

  /** `r` ranks at least as high as every candidate that matches. */
  ghost predicate IsMaximal(value: string, cs: seq<Configuration>, r: Configuration) {
    forall c :: c in cs && MatchesValue(value, c) ==> Rank(c) <= Rank(r)
  }

  /** `r` sits at position `i` and every matching candidate in front of it
      ranks strictly lower. */
  ghost predicate FirstMaximalAt(value: string, cs: seq<Configuration>, r: Configuration, i: int) {
    0 <= i < |cs| && cs[i] == r &&
    forall j :: 0 <= j < i && MatchesValue(value, cs[j]) ==> Rank(cs[j]) < Rank(r)
  }

  lemma SnocKeeps(value: string, init: seq<Configuration>, x: Configuration, r: Configuration, i: int)
    requires IsMaximal(value, init, r) && FirstMaximalAt(value, init, r, i)
    requires MatchesValue(value, x) ==> Rank(x) <= Rank(r)
    ensures IsMaximal(value, init + [x], r) && FirstMaximalAt(value, init + [x], r, i)
  {
    var cs := init + [x];
    forall c | c in cs && MatchesValue(value, c) ensures Rank(c) <= Rank(r) {
      if c != x { assert c in init; }
    }
    forall j | 0 <= j < i ensures cs[j] == init[j] { }
  }

  lemma SnocTakes(value: string, init: seq<Configuration>, x: Configuration)
    requires MatchesValue(value, x)
    requires forall c :: c in init && MatchesValue(value, c) ==> Rank(c) < Rank(x)
    ensures IsMaximal(value, init + [x], x) && FirstMaximalAt(value, init + [x], x, |init|)
  {
    var cs := init + [x];
    forall c | c in cs && MatchesValue(value, c) ensures Rank(c) <= Rank(x) {
      if c != x { assert c in init; }
    }
    forall j | 0 <= j < |init| && MatchesValue(value, cs[j]) ensures Rank(cs[j]) < Rank(x) {
      assert cs[j] == init[j] && init[j] in init;
    }
  }

  /** With a value, the result is a matching candidate of greatest
      specificity, and no matching candidate in front of it ties with it
      (the first maximal element wins); there is a result exactly when some
      candidate matches. */
  lemma {:induction false} MostSpecificIsMaximal(value: string, cs: seq<Configuration>)
    ensures MostSpecificMatch(value, cs).Some? ==>
      var r := MostSpecificMatch(value, cs).value;
      && r in cs && MatchesValue(value, r) && IsMaximal(value, cs, r)
      && exists i :: FirstMaximalAt(value, cs, r, i)
    decreases |cs|
  {
    if cs != [] {
      var init := cs[..|cs| - 1];
      var x := cs[|cs| - 1];
      assert cs == init + [x];
      MostSpecificIsMaximal(value, init);
      MostSpecificSnoc(value, init, x);
      var r0 := MostSpecificMatch(value, init);
      if r0.None? {
        if MatchesValue(value, x) {
          NoMatchNoResult(value, init);
          SnocTakes(value, init, x);
        }
      } else {
        var i0 :| FirstMaximalAt(value, init, r0.value, i0);
        if MatchesValue(value, x) && Rank(r0.value) < Rank(x) {
          SnocTakes(value, init, x);
        } else {
          SnocKeeps(value, init, x, r0.value, i0);
        }
      }
    }
  }

  /** How the result changes when one more candidate is fetched last: a
      matching newcomer is taken only when nothing matched before or it
      ranks strictly higher than the result so far. */
  lemma MostSpecificSnoc(value: string, init: seq<Configuration>, x: Configuration)
    ensures var r0 := MostSpecificMatch(value, init);
      MostSpecificMatch(value, init + [x]) ==
        if !MatchesValue(value, x) then r0
        else if r0.None? then Some(x)
        else if Rank(r0.value) >= Rank(x) then r0
        else Some(x)
  {
    MatchingSnoc(value, init, x);
    var mi := Matching(value, init);
    var m := Matching(value, init + [x]);
    if !MatchesValue(value, x) {
      assert m == mi;
    } else if mi == [] {
      assert m == [x];
    } else {
      assert m[0] == mi[0] && m[1..] == mi[1..] + [x];
      MaxByRankSnoc(mi[0], mi[1..], x);
      assert MostSpecificMatch(value, init) == Some(MaxByRank(mi[0], mi[1..]));
    }
  }

  /** The whole resolution, stated in terms of the declarative reading of
      patterns: without a value only a catch-all (never a configuration with
      a pattern, not even `*`) is returned; with a value the result's pattern
      spells out the value, no other matching candidate is more specific,
      and there is no result only when no candidate's pattern matches. */
  lemma ResolutionSpec(ctx: Option<RequestContext>, fetch: Option<string> -> seq<Configuration>)
    requires RequestFilterValue(ctx).Some? ==>
               forall c :: c in fetch(RequestFilterKey(ctx)) ==> HasPlainPattern(c)
    ensures var cs := fetch(RequestFilterKey(ctx));
            var r := FindConfiguration(ctx, fetch);
      && (RequestFilterValue(ctx).None? ==>
            && (r.Some? <==> exists c :: c in cs && IsCatchAll(c))
            && (r.Some? ==> Pattern(r.value).None?))
      && (RequestFilterValue(ctx).Some? ==>
            var v := RequestFilterValue(ctx).value;
            && (r.Some? <==> exists c :: c in cs && Pattern(c).Some? && GlobMatches(Pattern(c).value, v))
            && (r.Some? ==> Pattern(r.value).Some? && GlobMatches(Pattern(r.value).value, v))
            && (r.Some? ==> forall c :: c in cs && Pattern(c).Some? && GlobMatches(Pattern(c).value, v) ==>
                              Specificity(Pattern(c).value) <= Specificity(Pattern(r.value).value)))
  {
    var cs := fetch(RequestFilterKey(ctx));
    var r := FindConfiguration(ctx, fetch);
    if RequestFilterValue(ctx).None? {
      if r.Some? {
        assert IsCatchAll(r.value);
      } else {
        forall c | c in cs ensures !IsCatchAll(c) {
          var i :| 0 <= i < |cs| && cs[i] == c;
        }
      }
    } else {
      var v := RequestFilterValue(ctx).value;
      MostSpecificIsMaximal(v, cs);
      NoMatchNoResult(v, cs);
      forall c | c in cs && Pattern(c).Some?
        ensures MatchesValue(v, c) <==> GlobMatches(Pattern(c).value, v)
      {
        RegexAgreesWithGlob(Pattern(c).value, v);
      }
    }
  }

  /** Of two matching candidates, the strictly more specific one is chosen
      in either fetch order. */
  lemma MoreSpecificOfTwoWins(v: string, broad: Configuration, narrow: Configuration)
    requires MatchesValue(v, broad) && MatchesValue(v, narrow)
    requires Rank(broad) < Rank(narrow)
    ensures MostSpecificMatch(v, [broad, narrow]) == Some(narrow)
    ensures MostSpecificMatch(v, [narrow, broad]) == Some(narrow)
  {
    MatchingPair(v, broad, narrow);
    MatchingPair(v, narrow, broad);
    assert [broad, narrow][1..] == [narrow];
    assert [narrow, broad][1..] == [broad];
    assert MaxByRank(broad, [narrow]) == MaxByRank(narrow, []);
    assert MaxByRank(narrow, [broad]) == MaxByRank(narrow, []);
  }

  lemma MatchingPair(v: string, a: Configuration, b: Configuration)
    requires MatchesValue(v, a) && MatchesValue(v, b)
    ensures Matching(v, [a, b]) == [a, b]
  {
    assert [a, b][1..] == [b];
    assert ([b])[1..] == [];
    assert Matching(v, [b]) == [b] + Matching(v, []);
    assert Matching(v, [a, b]) == [a] + Matching(v, [b]);
  }

  /** A worked example: for `tenant-acme-prod`, `tenant-acme-*`
      wins over `tenant-*`, whichever order the two are fetched in. */
  lemma NarrowerPatternWins(broad: Configuration, narrow: Configuration, v: string)
    requires Pattern(broad) == Some("tenant-*")
    requires Pattern(narrow) == Some("tenant-acme-*")
    requires v == "tenant-acme-prod"
    ensures MostSpecificMatch(v, [broad, narrow]) == Some(narrow)
    ensures MostSpecificMatch(v, [narrow, broad]) == Some(narrow)
  {
    ExampleMatches(v);
    ExampleRanks();
    MoreSpecificOfTwoWins(v, broad, narrow);
  }

  lemma ExampleRanks()
    ensures Specificity("tenant-*") == 7
    ensures Specificity("tenant-acme-*") == 12
  {
    BmpPrefixStarRank("tenant-");
    assert "tenant-" + "*" == "tenant-*";
    BmpPrefixStarRank("tenant-acme-");
    assert "tenant-acme-" + "*" == "tenant-acme-*";
  }

  /** A star-free literal in the Basic Multilingual Plane followed by one
      `*` ranks as long as the literal. */
  lemma BmpPrefixStarRank(lit: string)
    requires forall i :: 0 <= i < |lit| ==> lit[i] != '*' && lit[i] as int < 0x1_0000
    ensures Specificity(lit + "*") == |lit|
  {
    GlobPrefixStar(lit, "");
    SpecificityCountsLiterals(lit + "*");
    Utf16LengthAppend(lit, "*");
    Utf16LengthBounds(lit);
  }

  lemma ExampleMatches(v: string)
    requires v == "tenant-acme-prod"
    ensures RegexMatches(ToRegex("tenant-*"), v)
    ensures RegexMatches(ToRegex("tenant-acme-*"), v)
  {
    BroadExampleMatches(v);
    NarrowExampleMatches(v);
  }

  lemma BroadExampleMatches(v: string)
    requires v == "tenant-acme-prod"
    ensures RegexMatches(ToRegex("tenant-*"), v)
  {
    assert v == "tenant-" + "acme-prod" && IsRun("acme-prod");
    PrefixStarMatches("tenant-", "acme-prod", v);
    assert "tenant-" + "*" == "tenant-*";
  }

  lemma NarrowExampleMatches(v: string)
    requires v == "tenant-acme-prod"
    ensures RegexMatches(ToRegex("tenant-acme-*"), v)
  {
    assert v == "tenant-acme-" + "prod" && IsRun("prod");
    PrefixStarMatches("tenant-acme-", "prod", v);
    assert "tenant-acme-" + "*" == "tenant-acme-*";
  }

  /** A pattern that is a plain literal and one trailing `*` matches the
      literal followed by any run. */
  lemma PrefixStarMatches(lit: string, run: string, v: string)
    requires forall i :: 0 <= i < |lit| ==> lit[i] != '*' && lit[i] !in RegexMetacharacters
    requires IsRun(run)
    requires v == lit + run
    ensures RegexMatches(ToRegex(lit + "*"), v)
  {
    assert PlainPattern(lit + "*") by {
      forall i | 0 <= i < |lit + "*"| ensures (lit + "*")[i] == '*' || (lit + "*")[i] !in RegexMetacharacters {
        if i < |lit| {
          assert (lit + "*")[i] == lit[i];
        }
      }
    }
    GlobPrefixStar(lit, run);
    GlobImpliesRegex(lit + "*", [run]);
  }
}
