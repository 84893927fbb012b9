/** Strings as the system's keyword rules see them: Python's `sub in s`
    (substring containment), `str.lower()`, `str.split()`, JavaScript's
    `String.prototype.split`, `trim` and `replace`, and the ordered
    first-match rule tables that every classifier of the system is built
    from. */
module Text {

  // ---------------------------------------------------------------------
  // Substring containment
  // ---------------------------------------------------------------------

  /** `sub in s` for Python strings: `sub` occurs contiguously in `s`. */
  predicate Contains(s: string, sub: string) {
    exists i | 0 <= i <= |s| - |sub| :: OccursAt(s, sub, i)
  }

  /** `sub` occurs in `s` starting at index `i`. */
  predicate OccursAt(s: string, sub: string, i: int) {
    0 <= i && i + |sub| <= |s| && s[i..i + |sub|] == sub
  }

  /** A character of `sub` that never occurs in `s` rules containment out. */
  lemma NotContainsByChar(s: string, sub: string, c: char)
    requires c in sub && c !in s
    ensures !Contains(s, sub)
  {
    var j :| 0 <= j < |sub| && sub[j] == c;
    forall i | 0 <= i <= |s| - |sub|
      ensures !OccursAt(s, sub, i)
    {
      assert s[i..i + |sub|][j] == s[i + j] != c;
    }
  }

  /** A piece of `sub` that `s` lacks rules `sub` out. */
  lemma NotContainsPart(s: string, sub: string, part: string)
    requires Contains(sub, part) && !Contains(s, part)
    ensures !Contains(s, sub)
  {
    if Contains(s, sub) {
      ContainsTransitive(s, sub, part);
    }
  }

  /** A space-free `sub` found in neither word is not found in the two
      words joined by a space. */
  lemma NotContainsAcrossSpace(a: string, b: string, sub: string)
    requires ' ' !in sub && !Contains(a, sub) && !Contains(b, sub)
    ensures !Contains(a + " " + b, sub)
  {
    var s := a + " " + b;
    forall i | 0 <= i <= |s| - |sub|
      ensures !OccursAt(s, sub, i)
    {
      if i + |sub| <= |a| {
        assert s[i..i + |sub|] == a[i..i + |sub|];
        assert !OccursAt(a, sub, i);
      } else if i > |a| {
        assert s[i..i + |sub|] == b[i - |a| - 1..i - |a| - 1 + |sub|];
        assert !OccursAt(b, sub, i - |a| - 1);
      } else {
        assert s[i..i + |sub|][|a| - i] == ' ';
      }
    }
  }

  /** A space-free `sub` found in no word is not found in the sentence. */
  lemma {:induction false} NotContainsWords(words: seq<string>, sub: string)
    requires |words| >= 1 && ' ' !in sub
    requires forall w :: w in words ==> !Contains(w, sub)
    ensures !Contains(Join(words, ' '), sub)
  {
    if |words| > 1 {
      NotContainsWords(words[1..], sub);
      NotContainsAcrossSpace(words[0], Join(words[1..], ' '), sub);
    }
  }

  /** A space-free keyword is absent from a sentence when every word is
      shorter than it or lacks its character `cs[i]`. */
  lemma NotContainsWordsByChar(words: seq<string>, sub: string, cs: seq<char>)
    requires |words| >= 1 && ' ' !in sub && |cs| == |words|
    requires forall i :: 0 <= i < |words| ==> |words[i]| < |sub| || (cs[i] in sub && cs[i] !in words[i])
    ensures !Contains(Join(words, ' '), sub)
  {
    forall w | w in words
      ensures !Contains(w, sub)
    {
      var i :| 0 <= i < |words| && words[i] == w;
      if |w| >= |sub| {
        NotContainsByChar(w, sub, cs[i]);
      }
    }
    NotContainsWords(words, sub);
  }

  /** A family of keywords against a sentence: none occurs when each
      keyword has a space-free piece (`parts[i]`, found at `offs[i]`) that
      every word at least as long lacks, as shown by one character per
      word (`css[i][j]` for word `j`). */
  lemma NoneInWords(words: seq<string>, kws: seq<string>, offs: seq<nat>, parts: seq<string>, css: seq<string>)
    requires |words| >= 1 && |offs| == |kws| && |parts| == |kws| && |css| == |kws|
    requires forall i :: 0 <= i < |kws| ==>
      ' ' !in parts[i] && offs[i] + |parts[i]| <= |kws[i]|
      && kws[i][offs[i]..offs[i] + |parts[i]|] == parts[i] && |css[i]| == |words|
    requires forall i, j :: 0 <= i < |kws| && 0 <= j < |words| ==>
      |words[j]| < |parts[i]| || (css[i][j] in parts[i] && css[i][j] !in words[j])
    ensures forall k :: k in kws ==> !Contains(Join(words, ' '), k)
  {
    forall i | 0 <= i < |kws|
      ensures !Contains(Join(words, ' '), kws[i])
    {
      NotContainsWordsByChar(words, parts[i], css[i]);
      assert OccursAt(kws[i], parts[i], offs[i]);
      NotContainsPart(Join(words, ' '), kws[i], parts[i]);
    }
  }

  /** Containment is transitive: text holding `t` holds everything `t` holds. */
  lemma ContainsTransitive(s: string, t: string, u: string)
    requires Contains(s, t) && Contains(t, u)
    ensures Contains(s, u)
  {
    var i :| 0 <= i <= |s| - |t| && OccursAt(s, t, i);
    var j :| 0 <= j <= |t| - |u| && OccursAt(t, u, j);
    assert s[i..i + |t|] == t;
    forall k | 0 <= k < |u|
      ensures s[i + j..i + j + |u|][k] == u[k]
    {
      assert u[k] == t[j + k] == s[i..i + |t|][j + k];
    }
    assert OccursAt(s, u, i + j);
  }

  /** Extending the text on either side keeps every substring it had. */
  lemma ContainsExtend(s: string, sub: string, before: string, after: string)
    requires Contains(s, sub)
    ensures Contains(before + s + after, sub)
  {
    var i :| 0 <= i <= |s| - |sub| && OccursAt(s, sub, i);
    var t := before + s + after;
    assert t[|before| + i..|before| + i + |sub|] == sub;
    assert OccursAt(t, sub, |before| + i);
  }

  /** Every string contains itself. */
  lemma ContainsSelf(s: string)
    ensures Contains(s, s)
  {
    assert s[0..|s|] == s;
    assert OccursAt(s, s, 0);
  }

  /** `any(k in s for k in keywords)`. */
  predicate AnyIn(s: string, keywords: seq<string>) {
    exists k | k in keywords :: Contains(s, k)
  }

  // ---------------------------------------------------------------------
  // Lower-casing (ASCII letters; see README "Left out")
  // ---------------------------------------------------------------------

  function LowerChar(c: char): (r: char)
    ensures 'A' <= c <= 'Z' ==> r == (c as int + 32) as char
    ensures !('A' <= c <= 'Z') ==> r == c
  {
    if 'A' <= c <= 'Z' then (c as int + 32) as char else c
  }

  /** `str.lower()` / `String.prototype.toLowerCase()`, character by character. */
  function Lower(s: string): (r: string)
    ensures |r| == |s|
    ensures forall i :: 0 <= i < |s| ==> r[i] == LowerChar(s[i])
    ensures forall i :: 0 <= i < |r| ==> !('A' <= r[i] <= 'Z')
  {
    seq(|s|, i requires 0 <= i < |s| => LowerChar(s[i]))
  }

  lemma LowerIdempotent(s: string)
    ensures Lower(Lower(s)) == Lower(s)
  {
  }

  lemma LowerAppend(s: string, t: string)
    ensures Lower(s + t) == Lower(s) + Lower(t)
  {
  }

  // ---------------------------------------------------------------------
  // Whitespace, trimming, splitting, joining
  // ---------------------------------------------------------------------

  /** ASCII whitespace: what `str.split()`, `String.prototype.trim` and the
      regular-expression class `\s` treat as blank in this model. */
  predicate IsSpace(c: char) {
    c == ' ' || c == '\t' || c == '\n' || c == '\r' || c == '\U{B}' || c == '\U{C}'
  }

  predicate IsBlank(s: string) {
    forall i :: 0 <= i < |s| ==> IsSpace(s[i])
  }

  function TrimStart(s: string): (r: string)
    ensures |r| <= |s| && r == s[|s| - |r|..]
    ensures r == [] || !IsSpace(r[0])
    ensures forall i :: 0 <= i < |s| - |r| ==> IsSpace(s[i])
  {
    if s != [] && IsSpace(s[0]) then TrimStart(s[1..]) else s
  }

  function TrimEnd(s: string): (r: string)
    ensures |r| <= |s| && r == s[..|r|]
    ensures r == [] || !IsSpace(r[|r| - 1])
    ensures forall i :: |r| <= i < |s| ==> IsSpace(s[i])
  {
    if s != [] && IsSpace(s[|s| - 1]) then TrimEnd(s[..|s| - 1]) else s
  }

  /** `s.trim()` / `s.strip()`: no blank character at either end. */
  function Trim(s: string): (r: string)
    ensures r == [] || (!IsSpace(r[0]) && !IsSpace(r[|r| - 1]))
    ensures |r| <= |s|
  {
    TrimEnd(TrimStart(s))
  }

  /** A string trims to nothing exactly when it is blank. */
  lemma TrimEmptyIffBlank(s: string)
    ensures Trim(s) == [] <==> IsBlank(s)
  {
    var t := TrimStart(s);
    assert s == s[..|s| - |t|] + t;
    if Trim(s) == [] {
      assert IsBlank(t[0..]);
    }
  }

  /** The JavaScript `s.split(sep)` for a one-character separator: the
      pieces between separators, at least one piece. */
  function SplitOn(s: string, sep: char): (r: seq<string>)
    ensures |r| >= 1
  {
    if s == [] then [""]
    else if s[0] == sep then [""] + SplitOn(s[1..], sep)
    else
      var rest := SplitOn(s[1..], sep);
      [[s[0]] + rest[0]] + rest[1..]
  }

  /** No piece holds the separator, and there is a single piece exactly
      when the text holds no separator. */
  lemma {:induction false} SplitPieces(s: string, sep: char)
    ensures forall p :: p in SplitOn(s, sep) ==> sep !in p
    ensures |SplitOn(s, sep)| == 1 <==> sep !in s
  {
    if s != [] {
      SplitPieces(s[1..], sep);
      if s[0] != sep {
        var rest := SplitOn(s[1..], sep);
        assert sep !in [s[0]] + rest[0];
        assert s == [s[0]] + s[1..];
      }
    }
  }

  /** Text without the separator is a single piece. */
  lemma {:induction false} SplitWithoutSep(s: string, sep: char)
    requires sep !in s
    ensures SplitOn(s, sep) == [s]
  {
    if s != [] {
      assert sep !in s[1..] by {
        forall i | 0 <= i < |s[1..]| ensures s[1..][i] != sep {
          assert s[1..][i] == s[i + 1];
        }
      }
      SplitWithoutSep(s[1..], sep);
      assert [s[0]] + s[1..] == s;
    }
  }

  /** Joining with the separator: `pieces.join(sep)`. */
  function Join(pieces: seq<string>, sep: char): string
    requires |pieces| >= 1
  {
    if |pieces| == 1 then pieces[0] else pieces[0] + [sep] + Join(pieces[1..], sep)
  }

  lemma JoinCons(piece: string, rest: seq<string>, sep: char)
    requires |rest| >= 1
    ensures Join([piece] + rest, sep) == piece + [sep] + Join(rest, sep)
  {
    assert ([piece] + rest)[1..] == rest;
  }

  /** Every piece occurs in the joined text. */
  lemma {:induction false} PieceInJoin(pieces: seq<string>, i: nat)
    requires i < |pieces|
    ensures Contains(Join(pieces, ' '), pieces[i])
  {
    if i == 0 {
      ContainsSelf(pieces[0]);
      if |pieces| > 1 {
        ContainsExtend(pieces[0], pieces[0], [], [' '] + Join(pieces[1..], ' '));
        assert [] + pieces[0] + ([' '] + Join(pieces[1..], ' ')) == Join(pieces, ' ');
      }
    } else {
      PieceInJoin(pieces[1..], i - 1);
      ContainsExtend(Join(pieces[1..], ' '), pieces[i], pieces[0] + [' '], []);
      assert pieces[0] + [' '] + Join(pieces[1..], ' ') + [] == Join(pieces, ' ');
    }
  }

  /** Each piece lower-cased. */
  function LowerAll(pieces: seq<string>): (r: seq<string>)
    ensures |r| == |pieces|
    ensures forall i :: 0 <= i < |pieces| ==> r[i] == Lower(pieces[i])
  {
    seq(|pieces|, i requires 0 <= i < |pieces| => Lower(pieces[i]))
  }

  lemma LowerAllIs(pieces: seq<string>, lowered: seq<string>)
    requires |pieces| == |lowered|
    requires forall i :: 0 <= i < |pieces| ==> Lower(pieces[i]) == lowered[i]
    ensures LowerAll(pieces) == lowered
  {
  }

  /** Lower-casing a sentence lower-cases its words. */
  lemma {:induction false} LowerJoin(pieces: seq<string>)
    requires |pieces| >= 1
    ensures Lower(Join(pieces, ' ')) == Join(LowerAll(pieces), ' ')
  {
    if |pieces| > 1 {
      LowerJoin(pieces[1..]);
      LowerAppend(pieces[0] + [' '], Join(pieces[1..], ' '));
      LowerAppend(pieces[0], [' ']);
      assert LowerAll(pieces)[1..] == LowerAll(pieces[1..]);
    }
  }

  /** Splitting and joining are inverse: nothing is lost or invented. */
  lemma {:induction false} SplitJoin(s: string, sep: char)
    ensures Join(SplitOn(s, sep), sep) == s
  {
    if s == [] {
    } else if s[0] == sep {
      SplitJoin(s[1..], sep);
      assert [sep] + s[1..] == s;
    } else {
      var rest := SplitOn(s[1..], sep);
      SplitJoin(s[1..], sep);
      if |rest| == 1 {
        assert [s[0]] + rest[0] == s;
      } else {
        assert Join([[s[0]] + rest[0]] + rest[1..], sep)
            == [s[0]] + rest[0] + [sep] + Join(rest[1..], sep);
        assert s == [s[0]] + s[1..];
      }
    }
  }

  /** Length of the leading run of characters that are not delimiters. */
  function RunLength(s: string, isDelim: char -> bool): (n: nat)
    ensures n <= |s|
    ensures forall i :: 0 <= i < n ==> !isDelim(s[i])
    ensures n < |s| ==> isDelim(s[n])
  {
    if s == [] || isDelim(s[0]) then 0 else 1 + RunLength(s[1..], isDelim)
  }

  /** The maximal runs of non-delimiter characters, in order: Python's
      `str.split()` for whitespace and the JavaScript `s.match(/[^\s,]+/g)`. */
  function Tokens(s: string, isDelim: char -> bool): (r: seq<string>)
    ensures forall t :: t in r ==> t != [] && forall i :: 0 <= i < |t| ==> !isDelim(t[i])
    decreases |s|
  {
    if s == [] then []
    else if isDelim(s[0]) then Tokens(s[1..], isDelim)
    else
      var n := RunLength(s, isDelim);
      [s[..n]] + Tokens(s[n..], isDelim)
  }

  /** `str.split()` with no argument. */
  function Words(s: string): seq<string> {
    Tokens(s, IsSpace)
  }

  /** A word with no whitespace splits to itself, with or without a
      trailing space. */
  lemma WordsOfWord(w: string)
    requires w != [] && forall i :: 0 <= i < |w| ==> !IsSpace(w[i])
    ensures Words(w) == [w]
    ensures Words(w + " ") == [w]
  {
    RunLengthOfWord(w, " ");
    RunLengthOfWord(w, "");
    assert w + "" == w;
    assert (w + " ")[..|w|] == w && (w + " ")[|w|..] == " ";
    assert w[..|w|] == w && w[|w|..] == "";
    assert Tokens(" ", IsSpace) == Tokens(" "[1..], IsSpace);
  }

  lemma {:induction false} RunLengthOfWord(w: string, rest: string)
    requires forall i :: 0 <= i < |w| ==> !IsSpace(w[i])
    requires rest == [] || IsSpace(rest[0])
    ensures RunLength(w + rest, IsSpace) == |w|
  {
    if w != [] {
      RunLengthOfWord(w[1..], rest);
      assert (w + rest)[1..] == w[1..] + rest;
    }
  }

  /** JavaScript `s.replace(/-/g, ' ')`. */
  function ReplaceDashes(s: string): (r: string)
    ensures |r| == |s|
    ensures forall i :: 0 <= i < |s| ==> r[i] == (if s[i] == '-' then ' ' else s[i])
  {
    if s == [] then [] else [if s[0] == '-' then ' ' else s[0]] + ReplaceDashes(s[1..])
  }

  /** JavaScript `s.replace(/["']/g, '')`. */
  function StripQuotes(s: string): (r: string)
    ensures '"' !in r && '\'' !in r
    ensures |r| <= |s|
  {
    if s == [] then []
    else if s[0] == '"' || s[0] == '\'' then StripQuotes(s[1..])
    else [s[0]] + StripQuotes(s[1..])
  }

  function MapTrim(pieces: seq<string>): (r: seq<string>)
    ensures |r| == |pieces|
    ensures forall i :: 0 <= i < |r| ==> r[i] == Trim(pieces[i])
  {
    seq(|pieces|, i requires 0 <= i < |pieces| => Trim(pieces[i]))
  }

  /** `pieces.filter(t => t)`: drops the empty strings, keeps the order. */
  function NonEmpty(pieces: seq<string>): (r: seq<string>)
    ensures |r| <= |pieces|
    ensures forall t :: t in r <==> t in pieces && t != []
  {
    if pieces == [] then []
    else if pieces[0] == [] then NonEmpty(pieces[1..])
    else [pieces[0]] + NonEmpty(pieces[1..])
  }

  predicate Distinct<T(==)>(s: seq<T>) {
    forall i, j :: 0 <= i < j < |s| ==> s[i] != s[j]
  }

  function SetOf<T(!new)>(s: seq<T>): (r: set<T>)
    ensures forall x :: x in r <==> x in s
  {
    set x | x in s
  }

  /** A subset is no larger than the set holding it. */
  lemma {:induction false} SubsetSize(s: set<string>, t: set<string>)
    requires s <= t
    ensures |s| <= |t|
  {
    if s != {} {
      var x :| x in s;
      SubsetSize(s - {x}, t - {x});
    }
  }

  function Min(a: int, b: int): int { if a <= b then a else b }

  /** The share `m / n` of a part in a non-empty whole. */
  lemma Share(m: nat, n: nat)
    requires m <= n
    ensures n > 0 ==> 0.0 <= m as real / n as real <= 1.0
    ensures n > 0 ==> (m as real / n as real == 0.0 <==> m == 0)
    ensures n > 0 ==> (m as real / n as real == 1.0 <==> m == n)
  {
    if n > 0 {
      var q := m as real / n as real;
      assert q * (n as real) == m as real;
    }
  }

  // ---------------------------------------------------------------------
  // Ordered rule tables: `if any(...) ... elif any(...) ... else default`
  // ---------------------------------------------------------------------

  /** Index of the first rule whose keyword list has a keyword occurring in
      `text`; `|rules|` when none does. */
  function FirstMatchIndex<T>(text: string, rules: seq<(T, seq<string>)>): (k: nat)
    ensures k <= |rules|
    ensures forall j :: 0 <= j < k ==> !AnyIn(text, rules[j].1)
    ensures k < |rules| ==> AnyIn(text, rules[k].1)
  {
    if rules == [] then 0
    else if AnyIn(text, rules[0].1) then 0
    else 1 + FirstMatchIndex(text, rules[1..])
  }

  /** The outcome of the first matching rule, or `default`. */
  function FirstMatch<T>(text: string, rules: seq<(T, seq<string>)>, default: T): (r: T)
  {
    var k := FirstMatchIndex(text, rules);
    if k < |rules| then rules[k].0 else default
  }

  /** First-match semantics: a rule wins exactly when it matches and no
      earlier rule does. */
  lemma FirstMatchWins<T>(text: string, rules: seq<(T, seq<string>)>, default: T, k: nat)
    requires k < |rules| && AnyIn(text, rules[k].1)
    requires forall j :: 0 <= j < k ==> !AnyIn(text, rules[j].1)
    ensures FirstMatchIndex(text, rules) == k
    ensures FirstMatch(text, rules, default) == rules[k].0
  {
  }

  /** With distinct outcomes, the first matching rule has the outcome of
      rule `k` exactly when rule `k` is the first whose keywords occur. */
  lemma FirstMatchIs<T>(text: string, rules: seq<(T, seq<string>)>, k: nat)
    requires k < |rules|
    requires forall i, j :: 0 <= i < j < |rules| ==> rules[i].0 != rules[j].0
    ensures var m := FirstMatchIndex(text, rules);
      (m < |rules| && rules[m].0 == rules[k].0)
      <==> AnyIn(text, rules[k].1) && forall j :: 0 <= j < k ==> !AnyIn(text, rules[j].1)
  {
    if AnyIn(text, rules[k].1) && forall j :: 0 <= j < k ==> !AnyIn(text, rules[j].1) {
      FirstMatchWins(text, rules, rules[k].0, k);
    }
  }

  lemma FirstMatchNone<T>(text: string, rules: seq<(T, seq<string>)>, default: T)
    requires forall j :: 0 <= j < |rules| ==> !AnyIn(text, rules[j].1)
    ensures FirstMatchIndex(text, rules) == |rules|
    ensures FirstMatch(text, rules, default) == default
  {
  }
}
