/**
 * Shell-style glob patterns as `fnmatch.translate` compiles them and
 * `re.match` applies them: `*` matches any run of characters (newlines
 * included), `?` any one character, `[...]` / `[!...]` a character class,
 * every other character itself; the match is anchored at both ends and is
 * case-sensitive. Characters are Unicode scalar values.
 */
module Glob {

  datatype ClassItem = Single(c: char) | Range(lo: char, hi: char)

  datatype Token = Star | AnyChar | Lit(c: char) | Class(negated: bool, items: seq<ClassItem>)

  /** A compiled pattern. */
  type Pattern = seq<Token>

  predicate InItem(item: ClassItem, c: char)
  {
    match item
    case Single(x) => c == x
    case Range(lo, hi) => lo <= c <= hi
  }

  predicate InClass(items: seq<ClassItem>, c: char)
  {
    exists i :: 0 <= i < |items| && InItem(items[i], c)
  }

  /**
   * The members of a class body as the regular-expression parser reads
   * them: `a-z` is a range, a `-` that cannot start a range is literal.
   */
  function ClassItems(body: string): (r: seq<ClassItem>)
    decreases |body|
  {
    if |body| == 0 then []
    else if |body| >= 3 && body[1] == '-' then [Range(body[0], body[2])] + ClassItems(body[3..])
    else [Single(body[0])] + ClassItems(body[1..])
  }

  /** First index at or after `j` holding `]`, or `|pat|` if there is none. */
  function ScanClose(pat: string, j: nat): (r: nat)
    requires j <= |pat|
    ensures j <= r <= |pat|
    ensures r < |pat| ==> pat[r] == ']'
    ensures forall k :: j <= k < r ==> pat[k] != ']'
    decreases |pat| - j
  {
    if j == |pat| || pat[j] == ']' then j else ScanClose(pat, j + 1)
  }

  /**
   * Where the class opened by `pat[0] == '['` closes: a leading `!` and
   * then a leading `]` belong to the class body.
   */
  function ClassClose(pat: string): (r: nat)
    requires |pat| > 0 && pat[0] == '['
    ensures 1 <= r <= |pat|
  {
    var j1 := if 1 < |pat| && pat[1] == '!' then 2 else 1;
    var j2 := if j1 < |pat| && pat[j1] == ']' then j1 + 1 else j1;
    ScanClose(pat, j2)
  }

  /** The token a class body `stuff` (between the brackets) stands for. */
  function ClassToken(stuff: string): Token
  {
    if |stuff| > 0 && stuff[0] == '!' then Class(true, ClassItems(stuff[1..]))
    else Class(false, ClassItems(stuff))
  }

  /** `fnmatch.translate`: pattern text to tokens. An unclosed `[` is literal. */
  function Translate(pat: string): (p: Pattern)
    decreases |pat|
  {
    if |pat| == 0 then []
    else if pat[0] == '*' then [Star] + Translate(pat[1..])
    else if pat[0] == '?' then [AnyChar] + Translate(pat[1..])
    else if pat[0] == '[' then
      var j := ClassClose(pat);
      if j == |pat| then [Lit('[')] + Translate(pat[1..])
      else [ClassToken(pat[1..j])] + Translate(pat[j + 1..])
    else [Lit(pat[0])] + Translate(pat[1..])
  }

  /** Whole-string match of `s` against the compiled pattern `p`. */
  predicate Match(p: Pattern, s: string)
    decreases |p| + |s|
  {
    if |p| == 0 then |s| == 0
    else match p[0]
      case Star => Match(p[1..], s) || (|s| > 0 && Match(p, s[1..]))
      case AnyChar => |s| > 0 && Match(p[1..], s[1..])
      case Lit(c) => |s| > 0 && s[0] == c && Match(p[1..], s[1..])
      case Class(neg, items) => |s| > 0 && InClass(items, s[0]) != neg && Match(p[1..], s[1..])
  }

  /** Whether some pattern of `ps` matches `s`. */
  predicate AnyMatch(ps: seq<Pattern>, s: string)
    decreases |ps|
  {
    |ps| > 0 && (AnyMatch(ps[..|ps| - 1], s) || Match(ps[|ps| - 1], s))
  }

  lemma {:induction false} AnyMatchExists(ps: seq<Pattern>, s: string)
    ensures AnyMatch(ps, s) <==> exists i :: 0 <= i < |ps| && Match(ps[i], s)
    decreases |ps|
  {
    if |ps| > 0 {
      var init := ps[..|ps| - 1];
      AnyMatchExists(init, s);
      if AnyMatch(init, s) {
        var i :| 0 <= i < |init| && Match(init[i], s);
        assert ps[i] == init[i];
      }
      if exists i :: 0 <= i < |ps| && Match(ps[i], s) {
        var i :| 0 <= i < |ps| && Match(ps[i], s);
        if i < |ps| - 1 {
          assert init[i] == ps[i];
        }
      }
    }
  }

  /** `*` matches every string, the empty one included. */
  lemma {:induction false} StarMatchesAll(s: string)
    ensures Match(Translate("*"), s)
    decreases |s|
  {
    assert Translate("*") == [Star];
    if |s| > 0 {
      StarMatchesAll(s[1..]);
    }
  }

  /** A list holding the `*` pattern matches every string. */
  lemma StarListMatchesAll(ps: seq<Pattern>, s: string)
    requires Translate("*") in ps
    ensures AnyMatch(ps, s)
  {
    StarMatchesAll(s);
    AnyMatchExists(ps, s);
  }

  predicate NoMeta(pat: string)
  {
    forall i :: 0 <= i < |pat| ==> pat[i] != '*' && pat[i] != '?' && pat[i] != '['
  }

  /** A pattern without `*`, `?` and `[` matches exactly the string it spells. */
  lemma {:induction false} LiteralMatchesOnlyItself(pat: string, s: string)
    requires NoMeta(pat)
    ensures Match(Translate(pat), s) <==> s == pat
    decreases |pat|
  {
    if |pat| > 0 {
      assert Translate(pat) == [Lit(pat[0])] + Translate(pat[1..]);
      assert Translate(pat)[1..] == Translate(pat[1..]);
      if |s| > 0 {
        LiteralMatchesOnlyItself(pat[1..], s[1..]);
        if s[0] == pat[0] && s[1..] == pat[1..] {
          assert s == [s[0]] + s[1..] && pat == [pat[0]] + pat[1..];
        }
      }
    }
  }

  /** `pat` occurs in `s` as a run of consecutive characters: some suffix of `s` starts with it. */
  predicate Occurs(pat: string, s: string)
  {
    exists i :: 0 <= i <= |s| && pat <= s[i..]
  }

  /** A pattern text without meta characters compiles character by character, whatever follows it. */
  lemma {:induction false} TranslateLiteralPrefix(pat: string, rest: string)
    requires NoMeta(pat)
    ensures Translate(pat + rest) == Translate(pat) + Translate(rest)
    decreases |pat|
  {
    if |pat| == 0 {
      assert pat + rest == rest;
    } else {
      var whole := pat + rest;
      assert whole[0] == pat[0] && whole[0] != '*' && whole[0] != '?' && whole[0] != '[';
      assert whole[1..] == pat[1..] + rest;
      assert Translate(whole) == [Lit(pat[0])] + Translate(pat[1..] + rest);
      assert Translate(pat) == [Lit(pat[0])] + Translate(pat[1..]);
      TranslateLiteralPrefix(pat[1..], rest);
    }
  }

  /** A leading `*` lets the rest of the pattern match any suffix. */
  lemma {:induction false} StarThen(q: Pattern, s: string)
    ensures Match([Star] + q, s) <==> exists i :: 0 <= i <= |s| && Match(q, s[i..])
    decreases |s|
  {
    var p := [Star] + q;
    assert p[0] == Star && p[1..] == q;
    if |s| == 0 {
      assert s[0..] == s;
    } else {
      StarThen(q, s[1..]);
      if Match(p, s) {
        if Match(q, s) {
          assert s[0..] == s;
        } else {
          var i :| 0 <= i <= |s| - 1 && Match(q, s[1..][i..]);
          assert s[1..][i..] == s[i + 1..];
        }
      }
      if exists i :: 0 <= i <= |s| && Match(q, s[i..]) {
        var i :| 0 <= i <= |s| && Match(q, s[i..]);
        if i > 0 {
          assert s[1..][i - 1..] == s[i..];
        } else {
          assert s[0..] == s;
        }
      }
    }
  }

  /** A literal pattern followed by `*` matches exactly the strings that start with it. */
  lemma {:induction false} LiteralThenStar(pat: string, t: string)
    requires NoMeta(pat)
    ensures Match(Translate(pat) + [Star], t) <==> pat <= t
    decreases |pat|
  {
    var p := Translate(pat) + [Star];
    if |pat| == 0 {
      assert p == Translate("*");
      StarMatchesAll(t);
    } else {
      assert Translate(pat) == [Lit(pat[0])] + Translate(pat[1..]);
      assert p[0] == Lit(pat[0]);
      assert p[1..] == Translate(pat[1..]) + [Star];
      if |t| > 0 {
        LiteralThenStar(pat[1..], t[1..]);
        if t[0] == pat[0] && pat[1..] <= t[1..] {
          assert pat == [pat[0]] + pat[1..] && t == [t[0]] + t[1..];
        }
      }
    }
  }

  /** `*pat*` with a literal `pat` matches exactly the strings in which `pat` occurs. */
  lemma StarsMatchOccurrence(pat: string, s: string)
    requires NoMeta(pat)
    ensures Match(Translate("*" + pat + "*"), s) <==> Occurs(pat, s)
  {
    var q := Translate(pat) + [Star];
    assert ("*" + pat + "*")[0] == '*' && ("*" + pat + "*")[1..] == pat + "*";
    TranslateLiteralPrefix(pat, "*");
    assert Translate("*") == [Star];
    assert Translate("*" + pat + "*") == [Star] + q;
    StarThen(q, s);
    forall i | 0 <= i <= |s|
      ensures Match(q, s[i..]) <==> pat <= s[i..]
    {
      LiteralThenStar(pat, s[i..]);
    }
  }

  /** Example: `one` does not match `__one__`, but `*one*` does. */
  lemma AnchoredAtBothEnds()
    ensures !Match(Translate("one"), "__one__")
    ensures Match(Translate("*one*"), "__one__")
  {
    LiteralMatchesOnlyItself("one", "__one__");
    StarsMatchOccurrence("one", "__one__");
    assert "one" <= "__one__"[2..];
  }

  /** `ScanClose` from `j` lands on `r` when `r` holds the first `]` at or after `j`. */
  lemma ScanCloseAt(pat: string, j: nat, r: nat)
    requires j <= r < |pat| && pat[r] == ']'
    requires forall k :: j <= k < r ==> pat[k] != ']'
    ensures ScanClose(pat, j) == r
  {
  }

  /** A class body whose characters are all single members: non-empty, without `]` and `-`. */
  predicate PlainBody(b: string)
  {
    |b| > 0 && forall i :: 0 <= i < |b| ==> b[i] != ']' && b[i] != '-'
  }

  /** Without `-`, each character of a class body is one member. */
  lemma {:induction false} SingleItems(b: string)
    requires forall i :: 0 <= i < |b| ==> b[i] != '-'
    ensures |ClassItems(b)| == |b|
    ensures forall i :: 0 <= i < |b| ==> ClassItems(b)[i] == Single(b[i])
    decreases |b|
  {
    if |b| > 0 {
      SingleItems(b[1..]);
      assert ClassItems(b) == [Single(b[0])] + ClassItems(b[1..]);
    }
  }

  /** Without `-`, a class body holds exactly its own characters. */
  lemma InPlainClass(b: string, c: char)
    requires forall i :: 0 <= i < |b| ==> b[i] != '-'
    ensures InClass(ClassItems(b), c) <==> c in b
  {
    SingleItems(b);
    if c in b {
      var i :| 0 <= i < |b| && b[i] == c;
      assert InItem(ClassItems(b)[i], c);
    }
  }

  /** `[b]` followed by `rest` compiles to the class of `b`'s characters, then `rest`. */
  lemma ClassTranslation(b: string, rest: string)
    requires PlainBody(b) && b[0] != '!'
    ensures Translate("[" + b + "]" + rest) == [Class(false, ClassItems(b))] + Translate(rest)
  {
    var pat := "[" + b + "]" + rest;
    assert pat[1] == b[0];
    ScanCloseAt(pat, 1, |b| + 1);
    assert pat[1..|b| + 1] == b;
    assert pat[|b| + 2..] == rest;
  }

  /** `[!b]` followed by `rest` compiles to the negated class of `b`'s characters, then `rest`. */
  lemma NegatedTranslation(b: string, rest: string)
    requires PlainBody(b)
    ensures Translate("[!" + b + "]" + rest) == [Class(true, ClassItems(b))] + Translate(rest)
  {
    var pat := "[!" + b + "]" + rest;
    assert pat[1] == '!' && pat[2] == b[0];
    ScanCloseAt(pat, 2, |b| + 2);
    assert pat[1..|b| + 2] == "!" + b;
    assert ("!" + b)[1..] == b;
    assert pat[|b| + 3..] == rest;
  }

  /** `[b]rest` matches a string iff its first character is one of `b` and `rest` matches the others. */
  lemma ClassMatches(b: string, rest: string, c: char, s: string)
    requires PlainBody(b) && b[0] != '!'
    ensures Match(Translate("[" + b + "]" + rest), [c] + s) <==> c in b && Match(Translate(rest), s)
  {
    ClassTranslation(b, rest);
    InPlainClass(b, c);
    var p := Translate("[" + b + "]" + rest);
    assert p[1..] == Translate(rest);
    assert ([c] + s)[0] == c && ([c] + s)[1..] == s;
  }

  /** `[!b]rest` matches a string iff its first character is not one of `b` and `rest` matches the others. */
  lemma NegatedClassMatches(b: string, rest: string, c: char, s: string)
    requires PlainBody(b)
    ensures Match(Translate("[!" + b + "]" + rest), [c] + s) <==> c !in b && Match(Translate(rest), s)
  {
    NegatedTranslation(b, rest);
    InPlainClass(b, c);
    var p := Translate("[!" + b + "]" + rest);
    assert p[1..] == Translate(rest);
    assert ([c] + s)[0] == c && ([c] + s)[1..] == s;
  }

  /** `[b]` alone matches exactly the one-character strings whose character is in `b`. */
  lemma ClassExactly(b: string, s: string)
    requires PlainBody(b) && b[0] != '!'
    ensures Match(Translate("[" + b + "]"), s) <==> |s| == 1 && s[0] in b
  {
    ClassTranslation(b, "");
    assert "[" + b + "]" + "" == "[" + b + "]";
    InPlainClass(b, if |s| > 0 then s[0] else 'x');
  }

  /** Example: `[45]*` matches codes `4..`, `5..` but not `200`; `[!2]??` is its complement on 3 digits. */
  lemma ClassExample()
    ensures Match(Translate("[45]*"), "404")
    ensures !Match(Translate("[45]*"), "200")
    ensures Match(Translate("[!2]??"), "301")
  {
    Class45();
    Negated2();
  }

  lemma Class45()
    ensures Match(Translate("[45]*"), "404")
    ensures !Match(Translate("[45]*"), "200")
  {
    var pat := "[45]*";
    assert pat == "[" + "45" + "]" + "*";
    ClassMatches("45", "*", '4', "04");
    ClassMatches("45", "*", '2', "00");
    StarMatchesAll("04");
    assert "404" == ['4'] + "04";
    assert "200" == ['2'] + "00";
  }

  lemma Negated2()
    ensures Match(Translate("[!2]??"), "301")
  {
    var pat := "[!2]??";
    assert pat == "[!" + "2" + "]" + "??";
    NegatedClassMatches("2", "??", '3', "01");
    var q := Translate("??");
    assert q == [AnyChar, AnyChar];
    assert Match(q[1..], "01"[1..]) by {
      assert q[1..] == [AnyChar] && "01"[1..] == "1";
      assert Match([AnyChar][1..], "1"[1..]);
    }
    assert Match(q, "01");
    assert "301" == ['3'] + "01";
  }
}
