/** The few Python `str` operations the bot's handlers rely on, over Dafny strings.
    A Dafny `string` is a sequence of Unicode scalar values, as a Python `str` is a
    sequence of code points, so lengths and indices agree with Python's. */
module PyText {

  /** `c.isspace()`: the characters CPython's `str.strip()` and `str.split()` (with no
      separator) treat as whitespace. */
  predicate IsSpace(c: char)
    ensures IsSpace(c) <==> c in Whitespace
  {
    || c == ' '
    || '\t' <= c <= '\r'
    || '\U{1C}' <= c <= '\U{1F}'
    || c == '\U{85}' || c == '\U{A0}' || c == '\U{1680}'
    || '\U{2000}' <= c <= '\U{200A}'
    || c == '\U{2028}' || c == '\U{2029}' || c == '\U{202F}' || c == '\U{205F}' || c == '\U{3000}'
  }

  /** The 29 characters for which CPython's `str.isspace()` is true. */
  const Whitespace: set<char> := {
    '\t', '\n', '\U{0B}', '\U{0C}', '\r', '\U{1C}', '\U{1D}', '\U{1E}', '\U{1F}', ' ',
    '\U{85}', '\U{A0}', '\U{1680}',
    '\U{2000}', '\U{2001}', '\U{2002}', '\U{2003}', '\U{2004}', '\U{2005}',
    '\U{2006}', '\U{2007}', '\U{2008}', '\U{2009}', '\U{200A}',
    '\U{2028}', '\U{2029}', '\U{202F}', '\U{205F}', '\U{3000}'
  }

  predicate AllSpace(s: string) {
    forall i :: 0 <= i < |s| ==> IsSpace(s[i])
  }

  predicate NoSpace(s: string) {
    forall i :: 0 <= i < |s| ==> !IsSpace(s[i])
  }

  /** `s.startswith(prefix)`. */
  predicate StartsWith(s: string, prefix: string)
    ensures StartsWith(s, prefix) <==> |prefix| <= |s| && s[..|prefix|] == prefix
  {
    prefix <= s
  }

  /** The number of whitespace characters `s` starts with. */
  function LeadingSpaces(s: string): (n: nat)
    ensures n <= |s| && AllSpace(s[..n])
    ensures n < |s| ==> !IsSpace(s[n])
  {
    if s != [] && IsSpace(s[0]) then
      var m := LeadingSpaces(s[1..]);
      assert s[..1 + m] == [s[0]] + s[1..][..m];
      1 + m
    else 0
  }

  /** The number of whitespace characters `s` ends with. */
  function TrailingSpaces(s: string): (n: nat)
    ensures n <= |s| && AllSpace(s[|s| - n..])
    ensures n < |s| ==> !IsSpace(s[|s| - n - 1])
  {
    if s != [] && IsSpace(s[|s| - 1]) then
      var init := s[..|s| - 1];
      var m := TrailingSpaces(init);
      assert AllSpace(s[|s| - (1 + m)..]) by {
        forall i | |s| - (1 + m) <= i < |s| - 1
          ensures IsSpace(s[i])
        {
          assert s[i] == init[|init| - m..][i - (|init| - m)];
        }
      }
      assert 1 + m < |s| ==> s[|s| - (1 + m) - 1] == init[|init| - m - 1];
      1 + m
    else 0
  }

  /** The length of the word `s` starts with: its run of leading non-whitespace characters. */
  function WordLength(s: string): (n: nat)
    ensures n <= |s| && NoSpace(s[..n])
    ensures n < |s| ==> IsSpace(s[n])
  {
    if s != [] && !IsSpace(s[0]) then
      var m := WordLength(s[1..]);
      assert s[..1 + m] == [s[0]] + s[1..][..m];
      1 + m
    else 0
  }

  /** `s.strip()`: `s` without its leading and trailing whitespace. */
  function Strip(s: string): (r: string)
    ensures r == [] <==> AllSpace(s)
    ensures r != [] ==> !IsSpace(r[0]) && !IsSpace(r[|r| - 1])
    ensures exists i, j :: 0 <= i <= j <= |s| && r == s[i..j] && AllSpace(s[..i]) && AllSpace(s[j..])
  {
    var i := LeadingSpaces(s);
    if i == |s| then
      assert s[..i] == s;
      assert s[i..i] == [] && s[i..] == [];
      []
    else
      var t := TrailingSpaces(s);
      assert i < |s| - t;
      assert !AllSpace(s) by { assert !IsSpace(s[i]); }
      s[i..|s| - t]
  }

  /** Leading and trailing whitespace is all that `Strip` removes: a text that is
      whitespace, then a core neither starting nor ending with whitespace, then
      whitespace strips to that core. */
  lemma {:induction false} StripSurrounded(lead: string, core: string, trail: string)
    requires AllSpace(lead) && AllSpace(trail)
    requires core != [] ==> !IsSpace(core[0]) && !IsSpace(core[|core| - 1])
    ensures Strip(lead + core + trail) == core
  {
    var s := lead + core + trail;
    if core == [] {
      assert AllSpace(s);
    } else {
      var i := LeadingSpaces(s);
      assert s[|lead|] == core[0];
      assert i == |lead|;
      var t := TrailingSpaces(s);
      var e := |lead| + |core|;
      assert s[e - 1] == core[|core| - 1];
      assert t == |trail|;
      assert s[i..|s| - t] == core;
    }
  }

  /** `s.split(maxsplit=1)`: skip leading whitespace, take the first word, skip the
      whitespace run after it, and keep everything else (inner whitespace included)
      as the second part. Empty parts are never produced. */
  function SplitOnce(s: string): (parts: seq<string>)
    ensures |parts| <= 2
    ensures parts == [] <==> AllSpace(s)
    ensures forall k :: 0 <= k < |parts| ==> parts[k] != []
    ensures |parts| >= 1 ==> NoSpace(parts[0])
    ensures |parts| == 2 ==> !IsSpace(parts[1][0]) && |parts[1]| <= |s| && parts[1] == s[|s| - |parts[1]|..]
  {
    var lead := LeadingSpaces(s);
    if lead == |s| then
      assert s[..lead] == s;
      []
    else
      assert !AllSpace(s) by { assert !IsSpace(s[lead]); }
      var rest := s[lead..];
      var w := WordLength(rest);
      var after := rest[w..];
      var gap := LeadingSpaces(after);
      if gap == |after| then [rest[..w]] else [rest[..w], after[gap..]]
  }

  /** The inverse direction of `SplitOnce`: a word, a whitespace run and a remainder
      that starts with a non-whitespace character split back into the word and the
      remainder, whatever whitespace the remainder contains. */
  lemma {:induction false} SplitOnceJoin(word: string, gap: string, rest: string)
    requires AllSpace(gap) && gap != []
    requires word != [] && NoSpace(word)
    requires rest != [] && !IsSpace(rest[0])
    ensures SplitOnce(word + gap + rest) == [word, rest]
  {
    var s := word + gap + rest;
    assert LeadingSpaces(s) == 0;
    assert s[0..] == s;
    var w := WordLength(s);
    assert s[|word|] == gap[0];
    assert w == |word|;
    var after := s[w..];
    assert after == gap + rest;
    var g := LeadingSpaces(after);
    assert after[|gap|] == rest[0];
    assert g == |gap|;
    assert s[..w] == word && after[g..] == rest;
  }

  /** A single word splits into just that word. */
  lemma {:induction false} SplitOnceWord(word: string)
    requires word != [] && NoSpace(word)
    ensures SplitOnce(word) == [word]
  {
    assert LeadingSpaces(word) == 0;
    assert word[0..] == word;
    assert WordLength(word) == |word|;
    assert word[..|word|] == word;
  }

  /** The cut points of `SplitOnce`: leading whitespace up to `a`, the first word up to
      `b`, the whitespace run after it up to `c`, and the second part from `c` on. */
  lemma SplitOnceCuts(s: string) returns (a: nat, b: nat, c: nat)
    requires !AllSpace(s)
    ensures a < b <= c <= |s|
    ensures AllSpace(s[..a]) && AllSpace(s[b..c])
    ensures c == |s| ==> SplitOnce(s) == [s[a..b]]
    ensures c < |s| ==> b < c && SplitOnce(s) == [s[a..b], s[c..]]
  {
    a := LeadingSpaces(s);
    var rest := s[a..];
    var w := WordLength(rest);
    var after := rest[w..];
    var g := LeadingSpaces(after);
    assert a < |s|;
    b, c := a + w, a + w + g;
    assert rest[..w] == s[a..b];
    assert after == s[b..];
    assert after[..g] == s[b..c];
    assert after[g..] == s[c..];
    assert g < |after| ==> w < |rest| && IsSpace(after[0]);
  }

  /** Where two parts come from: leading whitespace, the first part, a non-empty
      whitespace run, and the second part, which runs to the end of the text. */
  lemma SplitOnceTwo(s: string)
    requires |SplitOnce(s)| == 2
    ensures exists lead, gap ::
      && AllSpace(lead) && AllSpace(gap) && gap != []
      && s == lead + SplitOnce(s)[0] + gap + SplitOnce(s)[1]
  {
    var a, b, c := SplitOnceCuts(s);
    Glue(s, a, b, c);
  }

  /** Where a single part comes from: it is the text's only word, with whitespace around it. */
  lemma SplitOnceOne(s: string)
    requires |SplitOnce(s)| == 1
    ensures exists lead, trail :: AllSpace(lead) && AllSpace(trail) && s == lead + SplitOnce(s)[0] + trail
  {
    var a, b, c := SplitOnceCuts(s);
    Glue(s, a, b, c);
    assert s[c..] == [];
  }

  /** A text cut at three points is the concatenation of the four pieces. */
  lemma Glue(s: string, a: nat, b: nat, c: nat)
    requires a <= b <= c <= |s|
    ensures s == s[..a] + s[a..b] + s[b..c] + s[c..]
  {
    assert s[..b] == s[..a] + s[a..b];
    assert s[..c] == s[..b] + s[b..c];
    assert s == s[..c] + s[c..];
  }

  /** Whitespace around a stripped text is whitespace around the text it came from. */
  lemma StripUndone(s: string)
    ensures exists lead, trail :: AllSpace(lead) && AllSpace(trail) && s == lead + Strip(s) + trail
  {
    var i, j :| 0 <= i <= j <= |s| && Strip(s) == s[i..j] && AllSpace(s[..i]) && AllSpace(s[j..]);
    assert s == s[..i] + s[i..j] + s[j..];
  }

  /** The index of the first `c` in `s`, or `|s|` when there is none. */
  function IndexOf(s: string, c: char): (i: nat)
    ensures i <= |s| && c !in s[..i]
    ensures i < |s| ==> s[i] == c
  {
    if s == [] || s[0] == c then 0
    else
      var j := IndexOf(s[1..], c);
      assert s[..1 + j] == [s[0]] + s[1..][..j];
      1 + j
  }

  /** `s.split(sep, 1)` for a one-character separator: `[s]` when `sep` does not occur,
      otherwise what precedes the first `sep` and what follows it. */
  function SplitOnceAt(s: string, sep: char): (parts: seq<string>)
    ensures sep !in s ==> parts == [s]
    ensures sep in s ==> |parts| == 2 && sep !in parts[0] && s == parts[0] + [sep] + parts[1]
  {
    var i := IndexOf(s, sep);
    if i == |s| then
      assert s[..i] == s;
      [s]
    else
      assert s == s[..i] + [sep] + s[i + 1..];
      [s[..i], s[i + 1..]]
  }

  /** Splitting at the separator undoes joining at it, when the first part is free of it. */
  lemma {:induction false} SplitOnceAtJoin(head: string, sep: char, tail: string)
    requires sep !in head
    ensures SplitOnceAt(head + [sep] + tail, sep) == [head, tail]
  {
    var s := head + [sep] + tail;
    assert s[|head|] == sep;
    var parts := SplitOnceAt(s, sep);
    var p := parts[0];
    assert |p| == |head|;
    assert p == s[..|head|] == head;
    assert parts[1] == s[|head| + 1..] == tail;
  }

  /** `sub in s` for strings, one start position at a time. */
  predicate Contains(s: string, sub: string)
    ensures sub == [] ==> Contains(s, sub)
    ensures Contains(s, sub) ==> |sub| <= |s|
    decreases |s|
  {
    StartsWith(s, sub) || (s != [] && Contains(s[1..], sub))
  }

  /** `sub` occurs in `s` starting at position `k`. */
  predicate OccursAt(s: string, sub: string, k: nat) {
    k + |sub| <= |s| && s[k..k + |sub|] == sub
  }

  /** `Contains` holds exactly when `sub` occurs at some position of `s`. */
  lemma {:induction false} ContainsIff(s: string, sub: string)
    ensures Contains(s, sub) <==> exists k: nat :: OccursAt(s, sub, k)
    decreases |s|
  {
    if StartsWith(s, sub) {
      assert OccursAt(s, sub, 0) by { assert s[0..|sub|] == sub; }
    } else if s == [] {
    } else {
      ContainsIff(s[1..], sub);
      if exists k: nat :: OccursAt(s, sub, k) {
        var k: nat :| OccursAt(s, sub, k);
        assert k != 0 by { assert s[0..|sub|] == s[..|sub|]; }
        assert OccursAt(s[1..], sub, k - 1) by { assert s[1..][k - 1..k - 1 + |sub|] == s[k..k + |sub|]; }
      }
      if Contains(s[1..], sub) {
        var k: nat :| OccursAt(s[1..], sub, k);
        assert OccursAt(s, sub, k + 1) by { assert s[k + 1..k + 1 + |sub|] == s[1..][k..k + |sub|]; }
      }
    }
  }

  /** `c.lower()` for ASCII letters; every other character is left as it is. */
  function LowerChar(c: char): char {
    if 'A' <= c <= 'Z' then (c as int + 32) as char else c
  }

  /** `s.lower()`, character by character. */
  function Lower(s: string): (r: string)
    ensures |r| == |s|
    ensures forall i :: 0 <= i < |s| ==> r[i] == LowerChar(s[i])
  {
    if s == [] then [] else [LowerChar(s[0])] + Lower(s[1..])
  }

  /** The ten ASCII digits. */
  const Digits: set<char> := {'0', '1', '2', '3', '4', '5', '6', '7', '8', '9'}

  predicate IsAsciiDigit(c: char)
    ensures IsAsciiDigit(c) <==> c in Digits
  {
    '0' <= c <= '9'
  }

  /** `s.isdigit()` over ASCII digits: false for the empty string, as in Python. */
  predicate IsDigits(s: string)
    ensures IsDigits(s) <==> s != [] && forall c :: c in s ==> c in Digits
  {
    s != [] && forall i :: 0 <= i < |s| ==> IsAsciiDigit(s[i])
  }
}
