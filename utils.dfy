/**
 * kong/utils.py: an append-only list of glob patterns, the query that picks
 * the strings some pattern matches, and the whitelist/blacklist split built
 * on it.
 */
module Utils {
  import opened Glob

  // ---------------------------------------------------------------------
  // What `PatternList.matches` computes

  /**
   * Whether `matches` reports `s`: a string in the hit cache always, one in
   * the miss cache never, any other when some pattern matches it.
   */
  predicate Reported(ps: seq<Pattern>, hitCache: set<string>, missCache: set<string>, s: string)
  {
    s in hitCache || (s !in missCache && AnyMatch(ps, s))
  }

  /** The reported strings of `xs`, each once, in order of first appearance. */
  function Selected(ps: seq<Pattern>, hitCache: set<string>, missCache: set<string>, xs: seq<string>): seq<string>
    decreases |xs|
  {
    if |xs| == 0 then []
    else
      var prev := Selected(ps, hitCache, missCache, xs[..|xs| - 1]);
      var x := xs[|xs| - 1];
      if Reported(ps, hitCache, missCache, x) && x !in prev then prev + [x] else prev
  }

  /** `matches` on a list whose caches are empty, which is every list. */
  function MatchesOf(ps: seq<Pattern>, xs: seq<string>): seq<string>
  {
    Selected(ps, {}, {}, xs)
  }

  predicate NoDuplicates<T(==)>(xs: seq<T>)
  {
    forall i, j :: 0 <= i < j < |xs| ==> xs[i] != xs[j]
  }

  /** Index of the first occurrence of `x` in `xs`. */
  function FirstIndex<T(==)>(xs: seq<T>, x: T): (i: nat)
    requires x in xs
    ensures i < |xs| && xs[i] == x && x !in xs[..i]
    decreases |xs|
  {
    if xs[0] == x then 0 else 1 + FirstIndex(xs[1..], x)
  }

  lemma FirstIndexPrefix<T>(xs: seq<T>, k: nat, x: T)
    requires k <= |xs| && x in xs[..k]
    ensures FirstIndex(xs, x) == FirstIndex(xs[..k], x)
  {
    var i := FirstIndex(xs[..k], x);
    assert xs[..k][..i] == xs[..i];
  }

  /** A string is returned iff it is among the arguments and is reported. */
  lemma {:induction false} SelectedMembers(ps: seq<Pattern>, hc: set<string>, mc: set<string>, xs: seq<string>, x: string)
    ensures x in Selected(ps, hc, mc, xs) <==> x in xs && Reported(ps, hc, mc, x)
    decreases |xs|
  {
    if |xs| > 0 {
      var init := xs[..|xs| - 1];
      SelectedMembers(ps, hc, mc, init, x);
      assert xs == init + [xs[|xs| - 1]];
    }
  }

  /** Each string is returned at most once. */
  lemma {:induction false} SelectedDistinct(ps: seq<Pattern>, hc: set<string>, mc: set<string>, xs: seq<string>)
    ensures NoDuplicates(Selected(ps, hc, mc, xs))
    decreases |xs|
  {
    if |xs| > 0 {
      SelectedDistinct(ps, hc, mc, xs[..|xs| - 1]);
    }
  }

  /** The elements of `r` come from `xs`, in the order of their first appearance there. */
  predicate InFirstSeenOrder(r: seq<string>, xs: seq<string>)
  {
    forall i, j :: 0 <= i < j < |r| ==> r[i] in xs && r[j] in xs && FirstIndex(xs, r[i]) < FirstIndex(xs, r[j])
  }

  /** Returned strings come in the order of their first appearance among the arguments. */
  lemma {:induction false} SelectedFirstSeenOrder(ps: seq<Pattern>, hc: set<string>, mc: set<string>, xs: seq<string>)
    ensures InFirstSeenOrder(Selected(ps, hc, mc, xs), xs)
    decreases |xs|
  {
    var r := Selected(ps, hc, mc, xs);
    if |xs| > 0 {
      var init := xs[..|xs| - 1];
      var prev := Selected(ps, hc, mc, init);
      var x := xs[|xs| - 1];
      SelectedFirstSeenOrder(ps, hc, mc, init);
      assert InFirstSeenOrder(prev, init);
      forall y | y in prev
        ensures y in init && y in xs && FirstIndex(xs, y) == FirstIndex(init, y) < |init|
      {
        SelectedMembers(ps, hc, mc, init, y);
        FirstIndexPrefix(xs, |xs| - 1, y);
      }
      if r != prev {
        if x in init {
          SelectedMembers(ps, hc, mc, init, x);
        }
        assert FirstIndex(xs, x) == |xs| - 1;
      }
      assert r == prev || r == prev + [x];
      forall i, j | 0 <= i < j < |r|
        ensures r[i] in xs && r[j] in xs && FirstIndex(xs, r[i]) < FirstIndex(xs, r[j])
      {
        assert r[i] == prev[i] && prev[i] in prev;
        if j < |prev| {
          assert r[j] == prev[j] && prev[j] in prev;
          assert FirstIndex(init, prev[i]) < FirstIndex(init, prev[j]);
        } else {
          assert r[j] == x;
        }
      }
    }
  }

  /** A list with no patterns matches nothing. */
  lemma {:induction false} NoPatternsMatchNothing(xs: seq<string>)
    ensures MatchesOf([], xs) == []
    decreases |xs|
  {
    if |xs| > 0 {
      NoPatternsMatchNothing(xs[..|xs| - 1]);
    }
  }

  // ---------------------------------------------------------------------
  // PatternList

  /** `to_patterns`' meaning: each element compiled, in order. */
  predicate CompiledFrom(ps: seq<Pattern>, es: seq<string>)
  {
    |ps| == |es| && forall i :: 0 <= i < |es| ==> ps[i] == Translate(es[i])
  }

  class PatternList {
    var elements: seq<string>
    var patterns: seq<Pattern>
    var matchCache: set<string>
    var missCache: set<string>

    /** Patterns are the compiled elements; nothing ever fills the two caches. */
    ghost predicate Valid()
      reads this
    {
      CompiledFrom(patterns, elements) && matchCache == {} && missCache == {}
    }

    constructor (es: seq<string>)
      ensures Valid()
      ensures elements == es
    {
      elements := es;
      var ps := ToPatterns(es);
      patterns := ps;
      matchCache := {};
      missCache := {};
    }

    /** `to_patterns`: one compiled pattern per element, in order. */
    static method ToPatterns(es: seq<string>) returns (ps: seq<Pattern>)
      ensures CompiledFrom(ps, es)
    {
      ps := [];
      var i := 0;
      while i < |es|
        invariant 0 <= i <= |es|
        invariant CompiledFrom(ps, es[..i])
      {
        ps := ps + [ToPattern(es[i])];
        i := i + 1;
      }
      assert es[..i] == es;
    }

    /**
     * `to_pattern`: `re.compile(fnmatch.translate(item))`. `*` matches every
     * string, a literal only itself, `*lit*` every string containing `lit`,
     * and a plain class `[...]` exactly its own characters.
     */
    static function ToPattern(item: string): (p: Pattern)
      ensures item == "*" ==> forall s :: Match(p, s)
      ensures NoMeta(item) ==> forall s :: Match(p, s) <==> s == item
      ensures |item| >= 2 && item[0] == '*' && item[|item| - 1] == '*' && NoMeta(item[1..|item| - 1]) ==>
                forall s :: Match(p, s) <==> Occurs(item[1..|item| - 1], s)
      ensures |item| >= 3 && item[0] == '[' && item[1] != '!' && item[|item| - 1] == ']' && PlainBody(item[1..|item| - 1]) ==>
                forall s :: Match(p, s) <==> |s| == 1 && s[0] in item[1..|item| - 1]
    {
      var p := Translate(item);
      assert item == "*" ==> forall s :: Match(p, s) by {
        forall s | item == "*"
          ensures Match(p, s)
        {
          StarMatchesAll(s);
        }
      }
      assert NoMeta(item) ==> forall s :: Match(p, s) <==> s == item by {
        forall s | NoMeta(item)
          ensures Match(p, s) <==> s == item
        {
          LiteralMatchesOnlyItself(item, s);
        }
      }
      assert |item| >= 2 && item[0] == '*' && item[|item| - 1] == '*' && NoMeta(item[1..|item| - 1]) ==>
               forall s :: Match(p, s) <==> Occurs(item[1..|item| - 1], s) by {
        if |item| >= 2 && item[0] == '*' && item[|item| - 1] == '*' && NoMeta(item[1..|item| - 1]) {
          var lit := item[1..|item| - 1];
          assert item == "*" + lit + "*";
          forall s
            ensures Match(p, s) <==> Occurs(lit, s)
          {
            StarsMatchOccurrence(lit, s);
          }
        }
      }
      assert |item| >= 3 && item[0] == '[' && item[1] != '!' && item[|item| - 1] == ']' && PlainBody(item[1..|item| - 1]) ==>
               forall s :: Match(p, s) <==> |s| == 1 && s[0] in item[1..|item| - 1] by {
        if |item| >= 3 && item[0] == '[' && item[1] != '!' && item[|item| - 1] == ']' && PlainBody(item[1..|item| - 1]) {
          var body := item[1..|item| - 1];
          assert item == "[" + body + "]";
          forall s
            ensures Match(p, s) <==> |s| == 1 && s[0] in body
          {
            ClassExactly(body, s);
          }
        }
      }
      p
    }

    /** `update`: appends patterns, in order; the caches are untouched. */
    method Update(es: seq<string>)
      requires Valid()
      modifies this
      ensures Valid()
      ensures elements == old(elements) + es
      ensures patterns[..|old(patterns)|] == old(patterns)
    {
      var added := ToPatterns(es);
      elements := elements + es;
      patterns := patterns + added;
    }

    /**
     * `matches`: the distinct arguments that some pattern fully matches,
     * in order of first appearance. It reads both caches and writes neither.
     */
    method Matches(strings: seq<string>) returns (r: seq<string>)
      ensures r == Selected(patterns, matchCache, missCache, strings)
    {
      var matchset: set<string> := {};
      r := [];
      var i := 0;
      while i < |strings|
        invariant 0 <= i <= |strings|
        invariant r == Selected(patterns, matchCache, missCache, strings[..i])
        invariant matchset == set x | x in r
      {
        var s := strings[i];
        assert strings[..i + 1][..i] == strings[..i];
        if s in matchCache {
          if s !in matchset {
            r := r + [s];
            matchset := matchset + {s};
          }
        } else if s !in missCache {
          var k := 0;
          ghost var before := r;
          while k < |patterns|
            invariant 0 <= k <= |patterns|
            invariant matchset == set x | x in r
            invariant r == if s in before || !AnyMatch(patterns[..k], s) then before else before + [s]
          {
            assert patterns[..k + 1][..k] == patterns[..k];
            if s !in matchset && Match(patterns[k], s) {
              r := r + [s];
              matchset := matchset + {s};
            }
            k := k + 1;
          }
          assert patterns[..k] == patterns;
        }
        i := i + 1;
      }
      assert strings[..i] == strings;
    }
  }

  // ---------------------------------------------------------------------
  // filter_by_pattern_lists

  predicate IsHit(white: seq<Pattern>, black: seq<Pattern>, s: string)
  {
    AnyMatch(white, s) && !AnyMatch(black, s)
  }

  /** The arguments that are hits, in input order (duplicates kept). */
  function HitsOf(xs: seq<string>, white: seq<Pattern>, black: seq<Pattern>): seq<string>
    decreases |xs|
  {
    if |xs| == 0 then []
    else HitsOf(xs[..|xs| - 1], white, black) + (if IsHit(white, black, xs[|xs| - 1]) then [xs[|xs| - 1]] else [])
  }

  /** The arguments that are not hits, in input order (duplicates kept). */
  function MissesOf(xs: seq<string>, white: seq<Pattern>, black: seq<Pattern>): seq<string>
    decreases |xs|
  {
    if |xs| == 0 then []
    else MissesOf(xs[..|xs| - 1], white, black) + (if IsHit(white, black, xs[|xs| - 1]) then [] else [xs[|xs| - 1]])
  }

  /**
   * Every argument lands in exactly one of hits and misses, and it is a hit
   * iff the whitelist matches it and the blacklist does not.
   */
  lemma {:induction false} HitsMissesPartition(xs: seq<string>, w: seq<Pattern>, b: seq<Pattern>)
    ensures multiset(HitsOf(xs, w, b)) + multiset(MissesOf(xs, w, b)) == multiset(xs)
    decreases |xs|
  {
    if |xs| > 0 {
      var init := xs[..|xs| - 1];
      HitsMissesPartition(init, w, b);
      assert xs == init + [xs[|xs| - 1]];
    }
  }

  lemma {:induction false} HitsMembers(xs: seq<string>, w: seq<Pattern>, b: seq<Pattern>, x: string)
    ensures x in HitsOf(xs, w, b) <==> x in xs && IsHit(w, b, x)
    ensures x in MissesOf(xs, w, b) <==> x in xs && !IsHit(w, b, x)
    decreases |xs|
  {
    if |xs| > 0 {
      var init := xs[..|xs| - 1];
      HitsMembers(init, w, b, x);
      assert xs == init + [xs[|xs| - 1]];
    }
  }

  /** Both outputs keep input order: filtering distributes over concatenation. */
  lemma {:induction false} HitsOfConcat(xs: seq<string>, ys: seq<string>, w: seq<Pattern>, b: seq<Pattern>)
    ensures HitsOf(xs + ys, w, b) == HitsOf(xs, w, b) + HitsOf(ys, w, b)
    ensures MissesOf(xs + ys, w, b) == MissesOf(xs, w, b) + MissesOf(ys, w, b)
    decreases |ys|
  {
    if |ys| > 0 {
      var yi := ys[..|ys| - 1];
      HitsOfConcat(xs, yi, w, b);
      assert (xs + ys)[..|xs + ys| - 1] == xs + yi;
      assert (xs + ys)[|xs + ys| - 1] == ys[|ys| - 1];
    } else {
      assert xs + ys == xs;
    }
  }

  /** With an empty whitelist every argument is a miss. */
  lemma {:induction false} EmptyWhitelistAllMiss(xs: seq<string>, b: seq<Pattern>)
    ensures HitsOf(xs, [], b) == [] && MissesOf(xs, [], b) == xs
    decreases |xs|
  {
    if |xs| > 0 {
      EmptyWhitelistAllMiss(xs[..|xs| - 1], b);
      assert xs[..|xs| - 1] + [xs[|xs| - 1]] == xs;
    }
  }

  /** With `*` on the blacklist every argument is a miss. */
  lemma {:induction false} StarBlacklistAllMiss(xs: seq<string>, w: seq<Pattern>, b: seq<Pattern>)
    requires Translate("*") in b
    ensures HitsOf(xs, w, b) == [] && MissesOf(xs, w, b) == xs
    decreases |xs|
  {
    if |xs| > 0 {
      StarBlacklistAllMiss(xs[..|xs| - 1], w, b);
      StarListMatchesAll(b, xs[|xs| - 1]);
      assert xs[..|xs| - 1] + [xs[|xs| - 1]] == xs;
    }
  }

  /**
   * `filter_by_pattern_lists`: splits `attributes` positionally into the
   * hits (whitelisted, not blacklisted) and the misses.
   */
  method FilterByPatternLists(attributes: seq<string>, whitelist: PatternList, blacklist: PatternList)
    returns (hits: seq<string>, misses: seq<string>)
    requires whitelist.Valid() && blacklist.Valid()
    ensures hits == HitsOf(attributes, whitelist.patterns, blacklist.patterns)
    ensures misses == MissesOf(attributes, whitelist.patterns, blacklist.patterns)
  {
    var wm := whitelist.Matches(attributes);
    var bm := blacklist.Matches(attributes);
    var whiteMatches := set x | x in wm;
    var blackMatches := set x | x in bm;
    hits, misses := [], [];
    var i := 0;
    while i < |attributes|
      invariant 0 <= i <= |attributes|
      invariant hits == HitsOf(attributes[..i], whitelist.patterns, blacklist.patterns)
      invariant misses == MissesOf(attributes[..i], whitelist.patterns, blacklist.patterns)
    {
      var attr := attributes[i];
      SelectedMembers(whitelist.patterns, {}, {}, attributes, attr);
      SelectedMembers(blacklist.patterns, {}, {}, attributes, attr);
      assert attributes[..i + 1][..i] == attributes[..i];
      if attr in whiteMatches && attr !in blackMatches {
        hits := hits + [attr];
      } else {
        misses := misses + [attr];
      }
      i := i + 1;
    }
    assert attributes[..i] == attributes;
  }
}
