/** The handful of Python string operations the core relies on: `in` on strings,
    `lower`, `strip`, `split()` with no argument, `sep.join`, `replace`, slicing
    by prefix and suffix, and `f"{n}"` on integers. Each is written as Python
    defines it, and each comes with the lemma that says what it computes. */
module Text {

  // ---------------------------------------------------------------------------
  // Prefixes, suffixes, occurrences

  predicate StartsWith(s: string, p: string) {
    |p| <= |s| && s[..|p|] == p
  }

  predicate EndsWith(s: string, p: string) {
    |p| <= |s| && s[|s| - |p|..] == p
  }

  /** `k` occurs in `s` starting at index `i`. */
  predicate OccursAt(s: string, k: string, i: int) {
    0 <= i && i + |k| <= |s| && s[i..i + |k|] == k
  }

  /** Python's `k in s` for two strings. */
  predicate Contains(s: string, k: string)
    decreases |s|
  {
    StartsWith(s, k) || (|s| > 0 && Contains(s[1..], k))
  }

  lemma {:induction false} OccursAtContains(s: string, k: string, i: int)
    requires OccursAt(s, k, i)
    ensures Contains(s, k)
  {
    if i > 0 {
      assert s[1..][i - 1..i - 1 + |k|] == s[i..i + |k|];
      OccursAtContains(s[1..], k, i - 1);
    }
  }

  lemma {:induction false} ContainsOccurs(s: string, k: string)
    requires Contains(s, k)
    ensures exists i :: OccursAt(s, k, i)
  {
    if StartsWith(s, k) {
      assert OccursAt(s, k, 0);
    } else {
      ContainsOccurs(s[1..], k);
      var i :| OccursAt(s[1..], k, i);
      assert s[1..][i..i + |k|] == s[i + 1..i + 1 + |k|];
      assert OccursAt(s, k, i + 1);
    }
  }

  /** `k in s` holds exactly when `k` occurs at some position of `s`. */
  lemma ContainsIff(s: string, k: string)
    ensures Contains(s, k) <==> exists i :: OccursAt(s, k, i)
  {
    if Contains(s, k) {
      ContainsOccurs(s, k);
    }
    if exists i :: OccursAt(s, k, i) {
      var i :| OccursAt(s, k, i);
      OccursAtContains(s, k, i);
    }
  }

  /** Substring tests are monotonic: text around a hit keeps it a hit. */
  lemma ContainsInContext(a: string, s: string, b: string, k: string)
    requires Contains(s, k)
    ensures Contains(a + s + b, k)
  {
    ContainsOccurs(s, k);
    var i :| OccursAt(s, k, i);
    assert (a + s + b)[|a| + i..|a| + i + |k|] == s[i..i + |k|];
    OccursAtContains(a + s + b, k, |a| + i);
  }

  /** A string of fewer characters than `k` cannot contain it. */
  lemma {:induction false} ShorterNotContains(s: string, k: string)
    requires |s| < |k|
    ensures !Contains(s, k)
  {
    if |s| > 0 {
      ShorterNotContains(s[1..], k);
    }
  }

  /** A one-character needle is found exactly when that character is in the text. */
  lemma {:induction false} ContainsChar(s: string, c: char)
    ensures Contains(s, [c]) <==> c in s
  {
    if |s| > 0 {
      ContainsChar(s[1..], c);
      assert s == [s[0]] + s[1..];
    }
  }

  // ---------------------------------------------------------------------------
  // Case

  predicate IsUpper(c: char) {
    'A' <= c <= 'Z'
  }

  /** `str.lower` on one character, restricted to the ASCII letters. */
  function LowerChar(c: char): (r: char)
    ensures !IsUpper(r)
    ensures !IsUpper(c) ==> r == c
  {
    if IsUpper(c) then (c as int + 32) as char else c
  }

  predicate NoUpper(s: string) {
    forall i :: 0 <= i < |s| ==> !IsUpper(s[i])
  }

  /** `str.lower`: every character mapped by LowerChar. */
  function Lower(s: string): (r: string)
    ensures |r| == |s| && NoUpper(r)
    ensures forall i :: 0 <= i < |s| ==> r[i] == LowerChar(s[i])
  {
    seq(|s|, i requires 0 <= i < |s| => LowerChar(s[i]))
  }

  /** Lower-casing text that has no capitals changes nothing. */
  lemma LowerOfLower(s: string)
    requires NoUpper(s)
    ensures Lower(s) == s
  {
  }

  lemma LowerConcat(a: string, b: string)
    ensures Lower(a + b) == Lower(a) + Lower(b)
  {
  }

  // ---------------------------------------------------------------------------
  // Whitespace: `str.strip()` and `str.split()`

  /** Python's `str.isspace` for one character. */
  predicate IsSpace(c: char) {
    || c == ' ' || ('\t' <= c <= '\r') || ('\U{1c}' <= c <= '\U{1f}')
    || c == '\U{85}' || c == '\U{a0}' || c == '\U{1680}'
    || ('\U{2000}' <= c <= '\U{200a}') || c == '\U{2028}' || c == '\U{2029}'
    || c == '\U{202f}' || c == '\U{205f}' || c == '\U{3000}'
  }

  predicate AllSpace(s: string) {
    forall i :: 0 <= i < |s| ==> IsSpace(s[i])
  }

  predicate NoSpace(s: string) {
    forall i :: 0 <= i < |s| ==> !IsSpace(s[i])
  }

  /** `str.lstrip()`. */
  function TrimStart(s: string): (r: string)
    ensures |r| <= |s|
    decreases |s|
  {
    if s != [] && IsSpace(s[0]) then TrimStart(s[1..]) else s
  }

  /** `str.rstrip()`. */
  function TrimEnd(s: string): (r: string)
    ensures |r| <= |s|
    decreases |s|
  {
    if s != [] && IsSpace(s[|s| - 1]) then TrimEnd(s[..|s| - 1]) else s
  }

  /** What `lstrip` leaves is a suffix that starts with a non-space, and what it
      removes is whitespace. */
  lemma {:induction false} TrimStartShape(s: string)
    ensures var r := TrimStart(s);
      && |r| <= |s| && r == s[|s| - |r|..] && AllSpace(s[..|s| - |r|])
      && (r == [] || !IsSpace(r[0]))
    decreases |s|
  {
    if s != [] && IsSpace(s[0]) {
      var t := s[1..];
      TrimStartShape(t);
      var r := TrimStart(t);
      assert TrimStart(s) == r;
      assert t[|t| - |r|..] == s[|s| - |r|..];
      var k := |s| - |r|;
      assert s[..k] == [s[0]] + t[..k - 1];
    }
  }

  /** What `rstrip` leaves is a prefix that ends with a non-space, and what it
      removes is whitespace. */
  lemma {:induction false} TrimEndShape(s: string)
    ensures var r := TrimEnd(s);
      && |r| <= |s| && r == s[..|r|] && AllSpace(s[|r|..])
      && (r == [] || !IsSpace(r[|r| - 1]))
    decreases |s|
  {
    if s != [] && IsSpace(s[|s| - 1]) {
      var u := s[..|s| - 1];
      TrimEndShape(u);
      var r := TrimEnd(u);
      assert TrimEnd(s) == r;
      assert u[..|r|] == s[..|r|];
      assert s[|r|..] == u[|r|..] + [s[|s| - 1]];
    }
  }

  /** `str.strip()`. */
  function Strip(s: string): string {
    TrimEnd(TrimStart(s))
  }

  lemma StripIsInfix(s: string)
    ensures var r := Strip(s); var i := |s| - |TrimStart(s)|; i + |r| <= |s| && r == s[i..i + |r|]
  {
    var t := TrimStart(s);
    var r := TrimEnd(t);
    var i := |s| - |t|;
    TrimStartShape(s);
    TrimEndShape(t);
    assert t == s[i..];
    assert r == t[..|r|];
    assert t[..|r|] == s[i..i + |r|];
  }

  lemma StripDropsOnlySpace(s: string)
    ensures var r := Strip(s); var i := |s| - |TrimStart(s)|;
      i + |r| <= |s| && AllSpace(s[..i]) && AllSpace(s[i + |r|..])
  {
    var t := TrimStart(s);
    var r := TrimEnd(t);
    var i := |s| - |t|;
    TrimStartShape(s);
    TrimEndShape(t);
    assert AllSpace(s[i + |r|..]) by {
      assert t == s[i..];
      assert AllSpace(t[|r|..]);
      assert t[|r|..] == s[i + |r|..];
    }
  }

  lemma StripEnds(s: string)
    ensures var r := Strip(s); r == [] || (!IsSpace(r[0]) && !IsSpace(r[|r| - 1]))
  {
    var t := TrimStart(s);
    var r := TrimEnd(t);
    TrimStartShape(s);
    TrimEndShape(t);
    if r != [] {
      assert r[0] == t[0];
    }
  }

  /** What `strip` keeps is the part of `s` between a leading and a trailing run
      of whitespace, and it neither starts nor ends with whitespace. */
  lemma StripShape(s: string)
    ensures var r := Strip(s); var i := |s| - |TrimStart(s)|;
      && i + |r| <= |s| && r == s[i..i + |r|]
      && AllSpace(s[..i]) && AllSpace(s[i + |r|..])
      && (r == [] || (!IsSpace(r[0]) && !IsSpace(r[|r| - 1])))
  {
    StripIsInfix(s);
    StripDropsOnlySpace(s);
    StripEnds(s);
  }

  lemma {:induction false} TrimStartOfNonSpace(s: string)
    requires s == [] || !IsSpace(s[0])
    ensures TrimStart(s) == s
  {
  }

  lemma {:induction false} TrimEndOfNonSpace(s: string)
    requires s == [] || !IsSpace(s[|s| - 1])
    ensures TrimEnd(s) == s
  {
  }

  /** `lstrip` removes exactly a leading run of whitespace. */
  lemma {:induction false} TrimStartAfterSpace(pad: string, s: string)
    requires AllSpace(pad) && (s == [] || !IsSpace(s[0]))
    ensures TrimStart(pad + s) == s
    decreases |pad|
  {
    if pad == [] {
      assert pad + s == s;
    } else {
      assert (pad + s)[1..] == pad[1..] + s;
      TrimStartAfterSpace(pad[1..], s);
    }
  }

  /** `rstrip` removes exactly a trailing run of whitespace. */
  lemma {:induction false} TrimEndBeforeSpace(s: string, pad: string)
    requires AllSpace(pad) && (s == [] || !IsSpace(s[|s| - 1]))
    ensures TrimEnd(s + pad) == s
    decreases |pad|
  {
    if pad == [] {
      assert s + pad == s;
    } else {
      var last := |pad| - 1;
      assert (s + pad)[..|s + pad| - 1] == s + pad[..last];
      TrimEndBeforeSpace(s, pad[..last]);
    }
  }

  /** Stripping twice is stripping once. */
  lemma StripIdempotent(s: string)
    ensures Strip(Strip(s)) == Strip(s)
  {
    var r := Strip(s);
    StripEnds(s);
    TrimStartOfNonSpace(r);
    TrimEndOfNonSpace(r);
  }

  /** The first maximal run of non-space characters at the front of `s`. */
  function TakeWord(s: string): (w: string)
    ensures |w| <= |s| && w == s[..|w|] && NoSpace(w)
    ensures |w| < |s| ==> IsSpace(s[|w|])
    ensures s != [] && !IsSpace(s[0]) ==> |w| > 0
    decreases |s|
  {
    if s == [] || IsSpace(s[0]) then [] else [s[0]] + TakeWord(s[1..])
  }

  /** `str.split()` with no separator: the maximal runs of non-whitespace, in order. */
  function Words(s: string): seq<string>
    decreases |s|
  {
    if s == [] then []
    else if IsSpace(s[0]) then Words(s[1..])
    else var w := TakeWord(s); [w] + Words(s[|w|..])
  }

  /** Every word is non-empty, holds no whitespace and takes its characters from `s`. */
  lemma {:induction false} WordsShape(s: string)
    ensures forall w :: w in Words(s) ==> |w| > 0 && NoSpace(w)
    ensures forall w, c :: w in Words(s) && c in w ==> c in s
    decreases |s|
  {
    if s == [] {
    } else if IsSpace(s[0]) {
      WordsShape(s[1..]);
    } else {
      var w := TakeWord(s);
      WordsShape(s[|w|..]);
      assert Words(s) == [w] + Words(s[|w|..]);
      forall v, c | v in Words(s) && c in v ensures c in s {
        if v == w {
          assert c in s[..|w|];
        } else {
          assert v in Words(s[|w|..]);
          assert c in s[|w|..];
        }
      }
    }
  }

  lemma {:induction false} TakeWordOf(w: string, t: string)
    requires NoSpace(w)
    requires t == [] || IsSpace(t[0])
    ensures TakeWord(w + t) == w
    decreases |w|
  {
    if w != [] {
      assert (w + t)[1..] == w[1..] + t;
      TakeWordOf(w[1..], t);
    }
  }

  function JoinWith(sep: string, parts: seq<string>): string
    decreases |parts|
  {
    if |parts| == 0 then ""
    else if |parts| == 1 then parts[0]
    else parts[0] + sep + JoinWith(sep, parts[1..])
  }

  /** Every character of `sep.join(parts)` comes from `sep` or from one of the parts. */
  lemma {:induction false} JoinWithChars(sep: string, parts: seq<string>, c: char)
    requires c in JoinWith(sep, parts)
    ensures c in sep || exists i :: 0 <= i < |parts| && c in parts[i]
    decreases |parts|
  {
    if |parts| > 1 {
      var rest := JoinWith(sep, parts[1..]);
      assert JoinWith(sep, parts) == parts[0] + sep + rest;
      if c !in parts[0] && c !in sep {
        JoinWithChars(sep, parts[1..], c);
        var i :| 0 <= i < |parts[1..]| && c in parts[1..][i];
        assert c in parts[i + 1];
      }
    }
  }

  /** `split()` undoes `" ".join` of non-empty words without whitespace. */
  lemma {:induction false} WordsOfJoin(ws: seq<string>)
    requires forall i :: 0 <= i < |ws| ==> |ws[i]| > 0 && NoSpace(ws[i])
    ensures Words(JoinWith(" ", ws)) == ws
    decreases |ws|
  {
    if |ws| == 0 {
    } else {
      var w := ws[0];
      var t := if |ws| == 1 then "" else " " + JoinWith(" ", ws[1..]);
      assert JoinWith(" ", ws) == w + t;
      TakeWordOf(w, t);
      assert (w + t)[|w|..] == t;
      assert Words(w + t) == [w] + Words(t);
      if |ws| > 1 {
        assert t[1..] == JoinWith(" ", ws[1..]);
        WordsOfJoin(ws[1..]);
      }
    }
  }

  // ---------------------------------------------------------------------------
  // `str.replace` and `str.split(sep)`

  /** `s.replace(a, b)` for a non-empty `a`: leftmost, non-overlapping occurrences. */
  function ReplaceAll(s: string, a: string, b: string): string
    requires |a| > 0
    decreases |s|
  {
    if |s| < |a| then s
    else if s[..|a|] == a then b + ReplaceAll(s[|a|..], a, b)
    else [s[0]] + ReplaceAll(s[1..], a, b)
  }

  /** `s.split(a)` for a non-empty `a`. */
  function SplitOn(s: string, a: string): (parts: seq<string>)
    requires |a| > 0
    ensures |parts| >= 1
    decreases |s|
  {
    if |s| < |a| then [s]
    else if s[..|a|] == a then [""] + SplitOn(s[|a|..], a)
    else var r := SplitOn(s[1..], a); [[s[0]] + r[0]] + r[1..]
  }

  lemma JoinWithConsFirst(sep: string, x: string, parts: seq<string>)
    requires |parts| >= 1
    ensures JoinWith(sep, [x + parts[0]] + parts[1..]) == x + JoinWith(sep, parts)
  {
    var ps := [x + parts[0]] + parts[1..];
    if |parts| > 1 {
      assert ps[1..] == parts[1..];
    }
  }

  /** `s.replace(a, b) == b.join(s.split(a))`, the identity Python documents. */
  lemma {:induction false} ReplaceIsJoinOfSplit(s: string, a: string, b: string)
    requires |a| > 0
    ensures ReplaceAll(s, a, b) == JoinWith(b, SplitOn(s, a))
    decreases |s|
  {
    if |s| < |a| {
    } else if s[..|a|] == a {
      var r := SplitOn(s[|a|..], a);
      ReplaceIsJoinOfSplit(s[|a|..], a, b);
      assert ([""] + r)[1..] == r;
    } else {
      var r := SplitOn(s[1..], a);
      ReplaceIsJoinOfSplit(s[1..], a, b);
      JoinWithConsFirst(b, [s[0]], r);
    }
  }

  lemma {:induction false} ReplaceBySelf(s: string, a: string)
    requires |a| > 0
    ensures ReplaceAll(s, a, a) == s
    decreases |s|
  {
    if |s| < |a| {
    } else if s[..|a|] == a {
      ReplaceBySelf(s[|a|..], a);
      assert s == s[..|a|] + s[|a|..];
    } else {
      ReplaceBySelf(s[1..], a);
      assert s == [s[0]] + s[1..];
    }
  }

  /** Joining the pieces of `split(a)` back with `a` gives the text again. */
  lemma SplitJoinRoundTrip(s: string, a: string)
    requires |a| > 0
    ensures JoinWith(a, SplitOn(s, a)) == s
  {
    ReplaceIsJoinOfSplit(s, a, a);
    ReplaceBySelf(s, a);
  }

  lemma {:induction false} SplitFirstIsPrefix(s: string, a: string)
    requires |a| > 0
    ensures var p := SplitOn(s, a)[0]; |p| <= |s| && p == s[..|p|]
    decreases |s|
  {
    if |s| < |a| {
    } else if s[..|a|] == a {
    } else {
      var r := SplitOn(s[1..], a);
      SplitFirstIsPrefix(s[1..], a);
      var p := [s[0]] + r[0];
      assert SplitOn(s, a)[0] == p;
      assert s[..|p|] == [s[0]] + s[1..][..|r[0]|];
    }
  }

  /** No piece of `s.split(a)` holds a whole occurrence of `a`. */
  lemma {:induction false} SplitPiecesAvoidSeparator(s: string, a: string)
    requires |a| > 0
    ensures forall i :: 0 <= i < |SplitOn(s, a)| ==> !Contains(SplitOn(s, a)[i], a)
    decreases |s|
  {
    var parts := SplitOn(s, a);
    if |s| < |a| {
      ShorterNotContains(s, a);
    } else if s[..|a|] == a {
      SplitPiecesAvoidSeparator(s[|a|..], a);
      assert !Contains("", a) by { ShorterNotContains("", a); }
      forall i | 0 <= i < |parts| ensures !Contains(parts[i], a) {
        if i > 0 {
          assert parts[i] == SplitOn(s[|a|..], a)[i - 1];
        }
      }
    } else {
      var r := SplitOn(s[1..], a);
      SplitPiecesAvoidSeparator(s[1..], a);
      SplitFirstIsPrefix(s[1..], a);
      var p := [s[0]] + r[0];
      assert p == s[..|p|];
      assert !StartsWith(p, a) by {
        if |a| <= |p| {
          assert p[..|a|] == s[..|a|];
        }
      }
      assert p[1..] == r[0];
      assert !Contains(p, a);
      forall i | 0 <= i < |parts| ensures !Contains(parts[i], a) {
        if i > 0 {
          assert parts[i] == r[i];
        }
      }
    }
  }

  /** Splitting on a one-character separator peels off the text before its first
      occurrence. */
  lemma {:induction false} SplitOnFirst(x: string, d: char, y: string)
    requires d !in x
    ensures SplitOn(x + [d] + y, [d]) == [x] + SplitOn(y, [d])
    decreases |x|
  {
    var s := x + [d] + y;
    if x == [] {
      assert s[..1] == [d] && s[1..] == y;
    } else {
      assert s[..1] != [d] by { assert s[..1][0] == x[0]; }
      assert s[1..] == x[1..] + [d] + y;
      SplitOnFirst(x[1..], d, y);
      assert [s[0]] + x[1..] == x;
    }
  }

  /** A text without the separator splits into itself. */
  lemma {:induction false} SplitOnAbsent(x: string, d: char)
    requires d !in x
    ensures SplitOn(x, [d]) == [x]
    decreases |x|
  {
    if x != [] {
      assert x[..1] != [d] by { assert x[..1][0] == x[0]; }
      SplitOnAbsent(x[1..], d);
      assert [x[0]] + x[1..] == x;
    }
  }

  /** Without an occurrence, `replace` changes nothing. */
  lemma {:induction false} ReplaceAbsent(s: string, a: string, b: string)
    requires |a| > 0 && !Contains(s, a)
    ensures ReplaceAll(s, a, b) == s
    decreases |s|
  {
    if |s| >= |a| {
      assert s[..|a|] != a;
      ReplaceAbsent(s[1..], a, b);
      assert s == [s[0]] + s[1..];
    }
  }

  /** Replacing by something longer grows the text by at least one character
      per occurrence, so an occurrence always shows in the length. */
  lemma {:induction false} ReplaceLength(s: string, a: string, b: string)
    requires 0 < |a| <= |b|
    ensures |ReplaceAll(s, a, b)| >= |s|
    ensures |a| < |b| && Contains(s, a) ==> |ReplaceAll(s, a, b)| > |s|
    decreases |s|
  {
    if |s| < |a| {
      ShorterNotContains(s, a);
    } else if s[..|a|] == a {
      ReplaceLength(s[|a|..], a, b);
    } else {
      ReplaceLength(s[1..], a, b);
    }
  }

  /** Replacing one character by another is a character-by-character map. */
  lemma {:induction false} ReplaceCharIsMap(s: string, c: char, d: char)
    ensures var r := ReplaceAll(s, [c], [d]);
      |r| == |s| && forall i :: 0 <= i < |s| ==> r[i] == (if s[i] == c then d else s[i])
    decreases |s|
  {
    if |s| > 0 {
      ReplaceCharIsMap(s[1..], c, d);
      var r := ReplaceAll(s, [c], [d]);
      assert r == [if s[0] == c then d else s[0]] + ReplaceAll(s[1..], [c], [d]);
    }
  }

  // ---------------------------------------------------------------------------
  // Slices

  /** `[f(x) for x in s]`. */
  function MapSeq<T, U>(f: T -> U, s: seq<T>): (r: seq<U>)
    ensures |r| == |s|
    decreases |s|
  {
    if s == [] then [] else [f(s[0])] + MapSeq(f, s[1..])
  }

  lemma {:induction false} MapSeqAt<T, U>(f: T -> U, s: seq<T>, k: nat)
    requires k < |s|
    ensures MapSeq(f, s)[k] == f(s[k])
    decreases k
  {
    if k > 0 {
      MapSeqAt(f, s[1..], k - 1);
    }
  }

  lemma {:induction false} MapSeqSnoc<T, U>(f: T -> U, s: seq<T>, x: T)
    ensures MapSeq(f, s + [x]) == MapSeq(f, s) + [f(x)]
    decreases |s|
  {
    if s == [] {
      assert [x][1..] == [];
    } else {
      assert (s + [x])[1..] == s[1..] + [x];
      MapSeqSnoc(f, s[1..], x);
    }
  }

  /** `s[:n]`. */
  function Take<T>(s: seq<T>, n: nat): (r: seq<T>)
    ensures |r| == (if |s| < n then |s| else n) && r == s[..|r|]
  {
    if |s| <= n then s else s[..n]
  }

  /** `s[-n:]` for a positive `n`. */
  function LastN<T>(s: seq<T>, n: nat): (r: seq<T>)
    ensures |r| == (if |s| < n then |s| else n) && r == s[|s| - |r|..]
  {
    if |s| <= n then s else s[|s| - n..]
  }

  lemma {:induction false} MapSeqDrop<T, U>(f: T -> U, s: seq<T>, i: nat)
    requires i <= |s|
    ensures MapSeq(f, s[i..]) == MapSeq(f, s)[i..]
    decreases i
  {
    if i > 0 {
      assert s[i..] == s[1..][i - 1..];
      MapSeqDrop(f, s[1..], i - 1);
    }
  }

  /** Mapping then keeping the last `n` is keeping the last `n` then mapping. */
  lemma LastNOfMap<T, U>(f: T -> U, s: seq<T>, n: nat)
    ensures LastN(MapSeq(f, s), n) == MapSeq(f, LastN(s, n))
  {
    var m := |LastN(s, n)|;
    MapSeqDrop(f, s, |s| - m);
  }

  // ---------------------------------------------------------------------------
  // `f"{n}"` for integers

  predicate IsDigit(c: char) {
    '0' <= c <= '9'
  }

  function DigitChar(d: nat): (c: char)
    requires d < 10
    ensures IsDigit(c) && c as int - '0' as int == d
  {
    ('0' as int + d) as char
  }

  predicate IsDigits(s: string) {
    forall i :: 0 <= i < |s| ==> IsDigit(s[i])
  }

  /** Decimal notation without leading zeros, as `str(n)` writes it. */
  function NatToString(n: nat): string
    decreases n
  {
    if n < 10 then [DigitChar(n)] else NatToString(n / 10) + [DigitChar(n % 10)]
  }

  /** The value of a string of decimal digits. */
  function DigitsValue(s: string): nat
    requires IsDigits(s)
    decreases |s|
  {
    if s == [] then 0 else 10 * DigitsValue(s[..|s| - 1]) + (s[|s| - 1] as int - '0' as int)
  }

  /** `str(n)` is a non-empty digit string, without a leading zero unless it is "0",
      and reading it back gives `n`. */
  lemma {:induction false} NatToStringRoundTrip(n: nat)
    ensures var s := NatToString(n);
      s != [] && IsDigits(s) && (s[0] == '0' ==> n == 0) && DigitsValue(s) == n
    decreases n
  {
    if n >= 10 {
      NatToStringRoundTrip(n / 10);
      var s := NatToString(n);
      assert s[..|s| - 1] == NatToString(n / 10);
    }
  }

  /** `str(i)` for an integer: a minus sign before the digits of a negative one. */
  function IntToString(i: int): string {
    if i < 0 then "-" + NatToString(-i) else NatToString(i)
  }

  /** Reading `str(i)` back: an optional minus sign, then the digits of `|i|`. */
  function ParseInt(s: string): int
    requires s != [] && (if s[0] == '-' then IsDigits(s[1..]) else IsDigits(s))
  {
    if s[0] == '-' then -(DigitsValue(s[1..]) as int) else DigitsValue(s)
  }

  lemma IntToStringRoundTrip(i: int)
    ensures var s := IntToString(i);
      s != [] && (if s[0] == '-' then IsDigits(s[1..]) else IsDigits(s)) && ParseInt(s) == i
  {
    if i < 0 {
      NatToStringRoundTrip(-i);
      assert IntToString(i)[1..] == NatToString(-i);
    } else {
      NatToStringRoundTrip(i);
    }
  }

  // ---------------------------------------------------------------------------
  // repr

  /** The characters `repr` writes as `\xhh`: the C0 controls other than tab,
      newline and return, DEL, the C1 controls, no-break space and soft hyphen. */
  predicate HexEscaped(c: char) {
    c as int < 32 || 127 <= c as int <= 160 || c as int == 173
  }

  function HexDigit(d: nat): (c: char)
    requires d < 16
  {
    if d < 10 then ('0' as int + d) as char else ('a' as int + d - 10) as char
  }

  /** The value of a lower-case hexadecimal digit. */
  function HexValue(c: char): (v: nat)
    ensures v < 16
  {
    if '0' <= c <= '9' then c as int - '0' as int
    else if 'a' <= c <= 'f' then c as int - 'a' as int + 10
    else 0
  }

  /** One character inside a `repr` quoted with `q`. */
  function ReprChar(c: char, q: char): string {
    if c == '\\' then "\\\\"
    else if c == q then ['\\', q]
    else if c == '\t' then "\\t"
    else if c == '\n' then "\\n"
    else if c == '\r' then "\\r"
    else if HexEscaped(c) then ['\\', 'x', HexDigit(c as int / 16), HexDigit(c as int % 16)]
    else [c]
  }

  function ReprBody(s: string, q: char): string
    decreases |s|
  {
    if s == [] then [] else ReprChar(s[0], q) + ReprBody(s[1..], q)
  }

  /** `repr` quotes with `"` when the text has a `'` and no `"`, else with `'`. */
  function ReprQuote(s: string): char {
    if '\'' in s && '"' !in s then '"' else '\''
  }

  /** `repr(s)` of a `str`, as Python writes a file name into an `OSError`. */
  function PyRepr(s: string): (r: string)
    ensures |r| >= 2 && r[0] == ReprQuote(s) && r[|r| - 1] == ReprQuote(s)
  {
    [ReprQuote(s)] + ReprBody(s, ReprQuote(s)) + [ReprQuote(s)]
  }

  function Unescaped(c: char): char {
    if c == 't' then '\t' else if c == 'n' then '\n' else if c == 'r' then '\r' else c
  }

  /** Reading a `repr` body back: `\xhh`, the one-letter escapes and an escaped
      character stand for one character each. */
  function Unescape(t: string): string
    decreases |t|
  {
    if |t| >= 4 && t[0] == '\\' && t[1] == 'x' then [(16 * HexValue(t[2]) + HexValue(t[3])) as char] + Unescape(t[4..])
    else if |t| >= 2 && t[0] == '\\' then [Unescaped(t[1])] + Unescape(t[2..])
    else if t == [] then []
    else [t[0]] + Unescape(t[1..])
  }

  lemma UnescapeReprChar(c: char, q: char, rest: string)
    requires q == '\'' || q == '"'
    ensures Unescape(ReprChar(c, q) + rest) == [c] + Unescape(rest)
  {
    var t := ReprChar(c, q) + rest;
    if HexEscaped(c) && c != '\t' && c != '\n' && c != '\r' {
      assert t[4..] == rest;
      assert 16 * HexValue(t[2]) + HexValue(t[3]) == c as int;
    } else if |ReprChar(c, q)| == 2 {
      assert t[2..] == rest;
    } else {
      assert t[1..] == rest;
    }
  }

  lemma {:induction false} ReprBodyRoundTrip(s: string, q: char)
    requires q == '\'' || q == '"'
    ensures Unescape(ReprBody(s, q)) == s
    decreases |s|
  {
    if s != [] {
      UnescapeReprChar(s[0], q, ReprBody(s[1..], q));
      ReprBodyRoundTrip(s[1..], q);
      assert s == [s[0]] + s[1..];
    }
  }

  /** `repr` loses nothing: the text between the quotes reads back as the text. */
  lemma PyReprRoundTrip(s: string)
    ensures var r := PyRepr(s);
      && (r[0] == '"' <==> '\'' in s && '"' !in s)
      && Unescape(r[1..|r| - 1]) == s
  {
    var r := PyRepr(s);
    assert r[1..|r| - 1] == ReprBody(s, ReprQuote(s));
    ReprBodyRoundTrip(s, ReprQuote(s));
  }

  /** A text of printable ASCII without `'` and `\` is written as itself
      between single quotes. */
  lemma {:induction false} PyReprPlain(s: string)
    requires forall i :: 0 <= i < |s| ==> ' ' <= s[i] <= '~' && s[i] != '\'' && s[i] != '\\'
    ensures PyRepr(s) == "'" + s + "'"
  {
    PlainBody(s);
  }

  lemma {:induction false} PlainBody(s: string)
    requires forall i :: 0 <= i < |s| ==> ' ' <= s[i] <= '~' && s[i] != '\'' && s[i] != '\\'
    ensures ReprBody(s, '\'') == s
    decreases |s|
  {
    if s != [] {
      PlainBody(s[1..]);
      assert s == [s[0]] + s[1..];
    }
  }
}
