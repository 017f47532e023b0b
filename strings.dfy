/** The parts of Rust's `str` API that the extraction code relies on:
    searching (`find`, `contains`, `starts_with`, `ends_with`), replacing
    (`replace`), splitting (`split`, `split_whitespace`) and trimming (`trim`,
    `trim_start_matches`). Text is a `seq<char>`; every page the model reads is
    taken to be ASCII, so a character offset is also a byte offset. */
module Strings {

  datatype Option<T> = None | Some(value: T)

  /** `t` occurs in `s` at offset `i`. */
  predicate OccursAt(s: string, t: string, i: nat) {
    i + |t| <= |s| && s[i..i + |t|] == t
  }

  predicate StartsWith(s: string, t: string) {
    |t| <= |s| && s[..|t|] == t
  }

  predicate EndsWith(s: string, t: string) {
    |t| <= |s| && s[|s| - |t|..] == t
  }

  /** `s[from..].find(t)`, given as an offset into `s`: the first occurrence
      of `t` at or after `from` (`FindFromFirst` says it is the first). */
  function FindFrom(s: string, t: string, from: nat): (r: Option<nat>)
    requires from <= |s|
    ensures r.Some? ==> from <= r.value && OccursAt(s, t, r.value)
    decreases |s| - from
  {
    if OccursAt(s, t, from) then Some(from)
    else if from == |s| then None
    else FindFrom(s, t, from + 1)
  }

  /** There is no occurrence before the one `FindFrom` returns, and none at
      all when it returns `None`. */
  lemma {:induction false} FindFromFirst(s: string, t: string, from: nat)
    requires from <= |s|
    ensures FindFrom(s, t, from).Some? ==>
      forall j :: from <= j < FindFrom(s, t, from).value ==> !OccursAt(s, t, j)
    ensures FindFrom(s, t, from).None? ==> forall j :: from <= j ==> !OccursAt(s, t, j)
    decreases |s| - from
  {
    if !OccursAt(s, t, from) && from < |s| {
      FindFromFirst(s, t, from + 1);
    }
  }

  /** An occurrence at `p` means the search from `from <= p` succeeds at `p`
      or earlier. */
  lemma FindFromAtMost(s: string, t: string, from: nat, p: nat)
    requires from <= p && OccursAt(s, t, p)
    ensures FindFrom(s, t, from).Some? && FindFrom(s, t, from).value <= p
  {
    FindFromFirst(s, t, from);
  }

  /** `s.contains(t)`. */
  function Contains(s: string, t: string): (b: bool)
    ensures b <==> exists i: nat :: OccursAt(s, t, i)
  {
    FindFromFirst(s, t, 0);
    FindFrom(s, t, 0).Some?
  }

  /** An occurrence anywhere means the text contains `t`. */
  lemma OccursContains(s: string, t: string, i: nat)
    requires OccursAt(s, t, i)
    ensures Contains(s, t)
  {
  }

  /** `s[from..].find(|c| c in cs)`, given as an offset into `s`. */
  function FindCharFrom(s: string, from: nat, cs: set<char>): (r: Option<nat>)
    requires from <= |s|
    ensures r.Some? ==> from <= r.value < |s| && s[r.value] in cs
    decreases |s| - from
  {
    if from == |s| then None
    else if s[from] in cs then Some(from)
    else FindCharFrom(s, from + 1, cs)
  }

  /** No character before the one `FindCharFrom` returns is in `cs`, and none
      at all when it returns `None`. */
  lemma {:induction false} FindCharFromFirst(s: string, from: nat, cs: set<char>)
    requires from <= |s|
    ensures FindCharFrom(s, from, cs).Some? ==>
      forall j :: from <= j < FindCharFrom(s, from, cs).value ==> s[j] !in cs
    ensures FindCharFrom(s, from, cs).None? ==> forall j :: from <= j < |s| ==> s[j] !in cs
    decreases |s| - from
  {
    if from < |s| && s[from] !in cs {
      FindCharFromFirst(s, from + 1, cs);
    }
  }

  /** A text that lacks one of the characters of `t` does not contain `t`. */
  lemma MissingCharNotContained(s: string, t: string, c: char)
    requires c in t && c !in s
    ensures !Contains(s, t)
  {
    forall i: nat | i + |t| <= |s|
      ensures !OccursAt(s, t, i)
    {
      var k :| 0 <= k < |t| && t[k] == c;
      assert s[i..i + |t|][k] == s[i + k];
    }
  }

  /** A text shorter than `t` does not contain it. */
  lemma ShortNotContained(s: string, t: string)
    requires |s| < |t|
    ensures !Contains(s, t)
  {
  }

  /** An occurrence inside a part of a text is an occurrence in the text. */
  lemma ContainsInfix(a: string, m: string, b: string, t: string)
    requires Contains(m, t)
    ensures Contains(a + m + b, t)
  {
    var i: nat :| OccursAt(m, t, i);
    assert (a + m + b)[|a| + i..|a| + i + |t|] == m[i..i + |t|];
    assert OccursAt(a + m + b, t, |a| + i);
  }

  /** Number of occurrences of the character `c` in `s`. */
  function Count(s: string, c: char): nat {
    if s == [] then 0 else Count(s[..|s| - 1], c) + (if s[|s| - 1] == c then 1 else 0)
  }

  lemma {:induction false} CountConcat(a: string, b: string, c: char)
    ensures Count(a + b, c) == Count(a, c) + Count(b, c)
    decreases |b|
  {
    if b != [] {
      assert (a + b)[..|a + b| - 1] == a + b[..|b| - 1];
      CountConcat(a, b[..|b| - 1], c);
    } else {
      assert a + b == a;
    }
  }

  lemma {:induction false} CountAbsent(s: string, c: char)
    requires c !in s
    ensures Count(s, c) == 0
    decreases |s|
  {
    if s != [] {
      CountAbsent(s[..|s| - 1], c);
    }
  }

  // ---------------------------------------------------------------------
  // str::replace

  /** `s.replace(pat, rep)`: every occurrence of `pat` found scanning left to
      right, without overlap, is replaced by `rep`. */
  function ReplaceAll(s: string, pat: string, rep: string): string
    requires |pat| > 0
    decreases |s|
  {
    if s == [] then []
    else if OccursAt(s, pat, 0) then rep + ReplaceAll(s[|pat|..], pat, rep)
    else [s[0]] + ReplaceAll(s[1..], pat, rep)
  }

  /** Replacing a pattern that does not occur changes nothing. */
  lemma {:induction false} ReplaceAllAbsent(s: string, pat: string, rep: string)
    requires |pat| > 0 && !Contains(s, pat)
    ensures ReplaceAll(s, pat, rep) == s
    decreases |s|
  {
    if s != [] {
      assert !OccursAt(s, pat, 0);
      forall i: nat | i + |pat| <= |s[1..]|
        ensures !OccursAt(s[1..], pat, i)
      {
        assert s[1..][i..i + |pat|] == s[i + 1..i + 1 + |pat|];
        assert !OccursAt(s, pat, i + 1);
      }
      ReplaceAllAbsent(s[1..], pat, rep);
    }
  }

  /** A prefix in which no occurrence of the pattern starts is copied. */
  lemma {:induction false} ReplaceAllSkip(x: string, y: string, pat: string, rep: string)
    requires |pat| > 0
    requires forall j :: 0 <= j < |x| ==> !OccursAt(x + y, pat, j)
    ensures ReplaceAll(x + y, pat, rep) == x + ReplaceAll(y, pat, rep)
    decreases |x|
  {
    if x != [] {
      assert !OccursAt(x + y, pat, 0);
      assert (x + y)[1..] == x[1..] + y;
      forall j | 0 <= j < |x[1..]|
        ensures !OccursAt(x[1..] + y, pat, j)
      {
        assert !OccursAt(x + y, pat, j + 1);
        if j + |pat| <= |x[1..] + y| {
          assert (x[1..] + y)[j..j + |pat|] == (x + y)[j + 1..j + 1 + |pat|];
        }
      }
      ReplaceAllSkip(x[1..], y, pat, rep);
    } else {
      assert x + y == y;
    }
  }

  /** An occurrence at the very start is replaced, and scanning resumes after it. */
  lemma ReplaceAllHead(y: string, pat: string, rep: string)
    requires |pat| > 0
    ensures ReplaceAll(pat + y, pat, rep) == rep + ReplaceAll(y, pat, rep)
  {
    assert (pat + y)[0..|pat|] == pat;
    assert (pat + y)[|pat|..] == y;
  }

  /** A pattern preceded by text in which no occurrence starts is replaced
      once. */
  lemma ReplaceAllTail(x: string, pat: string, rep: string)
    requires |pat| > 0
    requires forall j :: 0 <= j < |x| ==> !OccursAt(x + pat, pat, j)
    ensures ReplaceAll(x + pat, pat, rep) == x + rep
  {
    ReplaceAllSkip(x, pat, pat, rep);
    assert pat == pat + [];
    ReplaceAllHead([], pat, rep);
  }

  // ---------------------------------------------------------------------
  // str::split(char) and the inverse join

  /** `parts.join(&c.to_string())`. */
  function Join(parts: seq<string>, c: char): string
    decreases |parts|
  {
    if |parts| == 0 then []
    else if |parts| == 1 then parts[0]
    else parts[0] + [c] + Join(parts[1..], c)
  }

  /** `s.split(c).collect()`: the pieces between occurrences of `c`; there is
      one more piece than there are separators, and joining the pieces gives
      back `s`. */
  function Split(s: string, c: char): (parts: seq<string>)
    ensures |parts| == Count(s, c) + 1
    ensures forall i :: 0 <= i < |parts| ==> c !in parts[i]
    ensures Join(parts, c) == s
    decreases |s|
  {
    FindCharFromFirst(s, 0, {c});
    match FindCharFrom(s, 0, {c})
    case None =>
      CountAbsent(s, c);
      [s]
    case Some(i) =>
      var rest := Split(s[i + 1..], c);
      assert s == s[..i] + [c] + s[i + 1..];
      CountConcat(s[..i] + [c], s[i + 1..], c);
      CountConcat(s[..i], [c], c);
      assert c !in s[..i];
      CountAbsent(s[..i], c);
      assert Count([c], c) == 1 by { assert [c][..0] == []; }
      [s[..i]] + rest
  }

  /** Splitting a joined list of separator-free pieces gives back the pieces. */
  lemma {:induction false} SplitJoin(parts: seq<string>, c: char)
    requires |parts| > 0
    requires forall i :: 0 <= i < |parts| ==> c !in parts[i]
    ensures Split(Join(parts, c), c) == parts
    decreases |parts|
  {
    if |parts| == 1 {
      assert Join(parts, c) == parts[0];
      FindCharFromFirst(parts[0], 0, {c});
      assert FindCharFrom(parts[0], 0, {c}).None?;
    } else {
      var p := parts[0];
      assert Join(parts, c) == p + [c] + Join(parts[1..], c);
      SplitCons(p, Join(parts[1..], c), c);
      SplitJoin(parts[1..], c);
      assert parts == [p] + parts[1..];
    }
  }

  /** A leading separator-free piece followed by the separator is one piece. */
  lemma SplitCons(a: string, b: string, c: char)
    requires c !in a
    ensures Split(a + [c] + b, c) == [a] + Split(b, c)
  {
    var s := a + [c] + b;
    assert s[|a|] == c;
    assert forall j :: 0 <= j < |a| ==> s[j] == a[j];
    FindCharFromFirst(s, 0, {c});
    assert FindCharFrom(s, 0, {c}) == Some(|a|);
    assert s[..|a|] == a;
    assert s[|a| + 1..] == b;
  }

  // ---------------------------------------------------------------------
  // Whitespace: char::is_whitespace, str::trim, split_whitespace

  /** `char::is_whitespace`: the Unicode White_Space property. */
  predicate IsWhitespace(c: char) {
    || (0x09 <= c as int <= 0x0D)
    || c as int == 0x20
    || c as int == 0x85
    || c as int == 0xA0
    || c as int == 0x1680
    || (0x2000 <= c as int <= 0x200A)
    || c as int == 0x2028
    || c as int == 0x2029
    || c as int == 0x202F
    || c as int == 0x205F
    || c as int == 0x3000
  }

  /** `s.trim_start()`: the longest suffix that does not start with whitespace. */
  function TrimStart(s: string): (r: string)
    ensures |r| <= |s| && r == s[|s| - |r|..]
    ensures forall i :: 0 <= i < |s| - |r| ==> IsWhitespace(s[i])
    ensures r != [] ==> !IsWhitespace(r[0])
    decreases |s|
  {
    if s != [] && IsWhitespace(s[0]) then TrimStart(s[1..]) else s
  }

  /** `s.trim_end()`: the longest prefix that does not end with whitespace. */
  function TrimEnd(s: string): (r: string)
    ensures |r| <= |s| && r == s[..|r|]
    ensures forall i :: |r| <= i < |s| ==> IsWhitespace(s[i])
    ensures r != [] ==> !IsWhitespace(r[|r| - 1])
    decreases |s|
  {
    if s != [] && IsWhitespace(s[|s| - 1]) then TrimEnd(s[..|s| - 1]) else s
  }

  /** `s.trim()`. */
  function Trim(s: string): string {
    TrimEnd(TrimStart(s))
  }

  /** Indexing into a slice; stated without a precondition so that it can
      be used in a case the proof is about to rule out. */
  lemma SliceAt(s: string, i: int, j: int, o: int)
    ensures 0 <= i <= j <= |s| && 0 <= o < j - i ==> s[i..j][o] == s[i + o]
  {
  }

  /** An occurrence in a slice is an occurrence in the text, shifted. */
  lemma OccursInSlice(s: string, t: string, a: nat, b: nat, i: nat)
    requires a <= b <= |s| && OccursAt(s[a..b], t, i)
    ensures OccursAt(s, t, a + i)
  {
    var x, y := s[a..b][i..i + |t|], s[a + i..a + i + |t|];
    forall j | 0 <= j < |t| ensures x[j] == y[j] {
    }
    assert x == y;
  }

  /** An occurrence in a suffix is an occurrence in the text, shifted. */
  lemma OccursInDrop(s: string, t: string, k: nat, i: nat)
    requires k <= |s|
    ensures OccursAt(s[k..], t, i) <==> OccursAt(s, t, i + k)
  {
    if i + |t| <= |s[k..]| {
      var x, y := s[k..][i..i + |t|], s[i + k..i + k + |t|];
      forall j | 0 <= j < |t| ensures x[j] == y[j] {
      }
      assert x == y;
    }
  }

  /** An occurrence that ends inside a prefix is an occurrence in the prefix. */
  lemma OccursInTake(s: string, t: string, k: nat, i: nat)
    requires k <= |s| && i + |t| <= k
    ensures OccursAt(s[..k], t, i) <==> OccursAt(s, t, i)
  {
    var x, y := s[..k][i..i + |t|], s[i..i + |t|];
    forall j | 0 <= j < |t| ensures x[j] == y[j] {
    }
    assert x == y;
  }

  /** A piece of an occurrence is an occurrence. */
  lemma OccursPart(s: string, t: string, i: nat, a: nat, b: nat)
    requires OccursAt(s, t, i) && a <= b <= |t|
    ensures OccursAt(s, t[a..b], i + a)
  {
    var x, y := s[i + a..i + b], t[a..b];
    forall j | 0 <= j < b - a ensures x[j] == y[j] {
      assert s[i..i + |t|][a + j] == s[i + a + j];
    }
    assert x == y;
  }

  /** Trimming only removes characters, so whatever the trimmed text
      contains, the text contains. */
  lemma TrimContained(s: string, t: string)
    ensures Contains(Trim(s), t) ==> Contains(s, t)
  {
    var a := TrimStart(s);
    var m := TrimEnd(a);
    var lead := |s| - |a|;
    if Contains(m, t) {
      var i: nat :| OccursAt(m, t, i);
      OccursInTake(a, t, |m|, i);
      OccursInDrop(s, t, lead, i);
    }
  }

  /** An occurrence that starts with a non-whitespace character survives
      `trim_start`. */
  lemma TrimStartKeeps(s: string, t: string, i: nat)
    requires |t| > 0 && !IsWhitespace(t[0]) && OccursAt(s, t, i)
    ensures i >= |s| - |TrimStart(s)| && OccursAt(TrimStart(s), t, i - (|s| - |TrimStart(s)|))
  {
    var lead := |s| - |TrimStart(s)|;
    assert s[i] == t[0] by { assert s[i..i + |t|][0] == s[i]; }
    OccursInDrop(s, t, lead, i - lead);
  }

  /** An occurrence that ends with a non-whitespace character survives
      `trim_end`. */
  lemma TrimEndKeeps(a: string, t: string, i: nat)
    requires |t| > 0 && !IsWhitespace(t[|t| - 1]) && OccursAt(a, t, i)
    ensures OccursAt(TrimEnd(a), t, i)
  {
    assert a[i + |t| - 1] == t[|t| - 1] by {
      assert a[i..i + |t|][|t| - 1] == a[i + |t| - 1];
    }
    OccursInTake(a, t, |TrimEnd(a)|, i);
  }

  /** An occurrence whose first and last characters are not whitespace
      survives trimming. */
  lemma TrimKeeps(s: string, t: string)
    requires |t| > 0 && !IsWhitespace(t[0]) && !IsWhitespace(t[|t| - 1])
    requires Contains(s, t)
    ensures Contains(Trim(s), t)
  {
    var i: nat :| OccursAt(s, t, i);
    TrimStartKeeps(s, t, i);
    TrimEndKeeps(TrimStart(s), t, i - (|s| - |TrimStart(s)|));
  }

  /** `s.trim_start_matches(c)`: drops every leading `c`. */
  function TrimStartChar(s: string, c: char): (r: string)
    ensures |r| <= |s| && r == s[|s| - |r|..]
    ensures forall i :: 0 <= i < |s| - |r| ==> s[i] == c
    ensures r != [] ==> r[0] != c
    decreases |s|
  {
    if s != [] && s[0] == c then TrimStartChar(s[1..], c) else s
  }

  /** Length of the longest prefix of `s` free of whitespace. */
  function WordLength(s: string): (n: nat)
    ensures n <= |s|
    ensures forall i :: 0 <= i < n ==> !IsWhitespace(s[i])
    ensures n == |s| || IsWhitespace(s[n])
    decreases |s|
  {
    if s == [] || IsWhitespace(s[0]) then 0 else 1 + WordLength(s[1..])
  }

  /** `s.split_whitespace().next()`: the first maximal run of non-whitespace,
      if there is one. */
  function FirstWord(s: string): (r: Option<string>)
    ensures r.None? <==> forall i :: 0 <= i < |s| ==> IsWhitespace(s[i])
  {
    var t := TrimStart(s);
    if t == [] then None
    else
      assert s[|s| - |t|] == t[0];
      Some(t[..WordLength(t)])
  }

  /** The first word starts the trimmed text, holds no whitespace, and ends
      at whitespace or at the end of the text. */
  lemma FirstWordShape(s: string)
    requires FirstWord(s).Some?
    ensures var w, t := FirstWord(s).value, TrimStart(s);
      && w != [] && StartsWith(t, w)
      && (forall i :: 0 <= i < |w| ==> !IsWhitespace(w[i]))
      && (|w| == |t| || IsWhitespace(t[|w|]))
  {
    var t := TrimStart(s);
    var n := WordLength(t);
    var w := t[..n];
    assert FirstWord(s).value == w;
    assert n > 0 by { assert t != [] && !IsWhitespace(t[0]); }
    forall i | 0 <= i < n ensures !IsWhitespace(w[i]) {
      assert w[i] == t[i];
    }
  }
}
