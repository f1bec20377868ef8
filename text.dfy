/** String helpers shared by the renderer and the backend models: the two whitespace sets
    (JavaScript's `String.prototype.trim` and Python's `str.strip`), ASCII case mapping,
    prefix tests, Python's `str.join` and character counting. */
module Text {

  /** Characters JavaScript's `trim` removes: WhiteSpace and LineTerminator of ECMAScript
      (TAB, VT, FF, SP, NBSP, ZWNBSP, the Zs category, LF, CR, LS, PS). */
  predicate IsJsWhitespace(c: char) {
    var n := c as int;
    (0x09 <= n <= 0x0D) || n == 0x20 || n == 0xA0 || n == 0x1680 || (0x2000 <= n <= 0x200A)
    || n == 0x2028 || n == 0x2029 || n == 0x202F || n == 0x205F || n == 0x3000 || n == 0xFEFF
  }

  /** Characters Python's argument-less `str.strip` removes (those for which `str.isspace` holds). */
  predicate IsPyWhitespace(c: char) {
    var n := c as int;
    (0x09 <= n <= 0x0D) || (0x1C <= n <= 0x20) || n == 0x85 || n == 0xA0 || n == 0x1680
    || (0x2000 <= n <= 0x200A) || n == 0x2028 || n == 0x2029 || n == 0x202F || n == 0x205F
    || n == 0x3000
  }

  predicate AllOf(s: string, p: char -> bool) {
    forall i :: 0 <= i < |s| ==> p(s[i])
  }

  /** Drops the leading characters satisfying `isWs`: the result is the longest suffix that
      starts with a character outside the set. */
  function TrimStart(s: string, isWs: char -> bool): (r: string)
    ensures |r| <= |s| && r == s[|s| - |r|..]
    ensures AllOf(s[..|s| - |r|], isWs)
    ensures r == [] || !isWs(r[0])
  {
    if s != [] && isWs(s[0]) then TrimStart(s[1..], isWs) else s
  }

  /** Text that does not start with a stripped character is left as it is. */
  lemma {:induction false} TrimStartIdle(s: string, isWs: char -> bool)
    requires s == [] || !isWs(s[0])
    ensures TrimStart(s, isWs) == s
  {
  }

  /** Drops the trailing characters satisfying `isWs`. */
  function TrimEnd(s: string, isWs: char -> bool): (r: string)
    ensures |r| <= |s| && r == s[..|r|]
    ensures AllOf(s[|r|..], isWs)
    ensures r == [] || !isWs(r[|r| - 1])
  {
    if s != [] && isWs(s[|s| - 1]) then TrimEnd(s[..|s| - 1], isWs) else s
  }

  function Trim(s: string, isWs: char -> bool): string {
    TrimEnd(TrimStart(s, isWs), isWs)
  }

  /** JavaScript `s.trim()`. */
  function JsTrim(s: string): string {
    Trim(s, IsJsWhitespace)
  }

  /** Python `s.strip()`. */
  function PyStrip(s: string): string {
    Trim(s, IsPyWhitespace)
  }

  lemma {:induction false} AllOfFront(s: string, p: char -> bool)
    requires s != []
    ensures AllOf(s, p) <==> p(s[0]) && AllOf(s[1..], p)
  {
    var t := s[1..];
    if p(s[0]) && AllOf(t, p) {
      forall i | 0 < i < |s| ensures p(s[i]) { assert s[i] == t[i - 1]; }
    }
    if AllOf(s, p) {
      forall i | 0 <= i < |t| ensures p(t[i]) { assert t[i] == s[i + 1]; }
    }
  }

  lemma {:induction false} AllOfBack(s: string, p: char -> bool)
    requires s != []
    ensures AllOf(s, p) <==> p(s[|s| - 1]) && AllOf(s[..|s| - 1], p)
  {
    var t := s[..|s| - 1];
    if p(s[|s| - 1]) && AllOf(t, p) {
      forall i | 0 <= i < |s| - 1 ensures p(s[i]) { assert s[i] == t[i]; }
    }
    if AllOf(s, p) {
      forall i | 0 <= i < |t| ensures p(t[i]) { assert t[i] == s[i]; }
    }
  }

  lemma {:induction false} TrimStartEmptyIff(s: string, isWs: char -> bool)
    ensures TrimStart(s, isWs) == [] <==> AllOf(s, isWs)
  {
    if s != [] {
      AllOfFront(s, isWs);
      if isWs(s[0]) {
        TrimStartEmptyIff(s[1..], isWs);
      }
    }
  }

  lemma {:induction false} TrimEndEmptyIff(s: string, isWs: char -> bool)
    ensures TrimEnd(s, isWs) == [] <==> AllOf(s, isWs)
  {
    if s != [] {
      AllOfBack(s, isWs);
      if isWs(s[|s| - 1]) {
        TrimEndEmptyIff(s[..|s| - 1], isWs);
      }
    }
  }

  /** Trimming leaves nothing exactly when every character is in the whitespace set. */
  lemma {:induction false} TrimEmptyIff(s: string, isWs: char -> bool)
    ensures Trim(s, isWs) == [] <==> AllOf(s, isWs)
  {
    var t := TrimStart(s, isWs);
    TrimStartEmptyIff(s, isWs);
    TrimEndEmptyIff(t, isWs);
  }

  /** Trimming twice is trimming once. */
  lemma {:induction false} TrimIdempotent(s: string, isWs: char -> bool)
    ensures Trim(Trim(s, isWs), isWs) == Trim(s, isWs)
  {
    var u := TrimStart(s, isWs);
    var t := TrimEnd(u, isWs);
    if t != [] {
      assert t[0] == u[0];
    }
  }

  /** Padding made only of whitespace does not change what trimming keeps. */
  lemma {:induction false} TrimIgnoresPadding(pre: string, s: string, post: string, isWs: char -> bool)
    requires AllOf(pre, isWs) && AllOf(post, isWs)
    ensures Trim(pre + s + post, isWs) == Trim(s, isWs)
  {
    assert pre + s + post == pre + (s + post);
    TrimStartPadding(pre, s + post, isWs);
    var t := TrimStart(s, isWs);
    TrimStartKeepsTail(s, post, isWs);
    if t == [] {
      TrimStartEmptyIff(post, isWs);
    } else {
      TrimEndPadding(t, post, isWs);
    }
  }

  lemma {:induction false} TrimStartPadding(pre: string, s: string, isWs: char -> bool)
    requires AllOf(pre, isWs)
    ensures TrimStart(pre + s, isWs) == TrimStart(s, isWs)
  {
    if pre == [] {
      assert pre + s == s;
    } else {
      assert (pre + s)[0] == pre[0];
      assert (pre + s)[1..] == pre[1..] + s;
      AllOfFront(pre, isWs);
      TrimStartPadding(pre[1..], s, isWs);
    }
  }

  /** `TrimStart(s + post)` is `TrimStart(s) + post` when `s` holds a non-whitespace
      character, and `TrimStart(post)` otherwise. */
  lemma {:induction false} TrimStartKeepsTail(s: string, post: string, isWs: char -> bool)
    ensures TrimStart(s, isWs) != [] ==> TrimStart(s + post, isWs) == TrimStart(s, isWs) + post
    ensures TrimStart(s, isWs) == [] ==> TrimStart(s + post, isWs) == TrimStart(post, isWs)
  {
    if s == [] {
      assert s + post == post;
    } else {
      assert (s + post)[0] == s[0];
      if isWs(s[0]) {
        assert (s + post)[1..] == s[1..] + post;
        TrimStartKeepsTail(s[1..], post, isWs);
      }
    }
  }

  lemma {:induction false} TrimEndPadding(s: string, post: string, isWs: char -> bool)
    requires AllOf(post, isWs)
    ensures TrimEnd(s + post, isWs) == TrimEnd(s, isWs)
  {
    if post == [] {
      assert s + post == s;
    } else {
      var w := s + post;
      var q := post[..|post| - 1];
      assert w[|w| - 1] == post[|post| - 1];
      assert w[..|w| - 1] == s + q;
      AllOfBack(post, isWs);
      TrimEndPadding(s, q, isWs);
    }
  }

  /** Appending anything to a string keeps its trimmed form as a prefix of the new trimmed
      form, provided something non-blank was there to begin with. */
  lemma {:induction false} TrimPrefixOfExtension(s: string, post: string, isWs: char -> bool)
    requires !AllOf(s, isWs)
    ensures StartsWith(Trim(s + post, isWs), Trim(s, isWs))
  {
    var t := TrimStart(s, isWs);
    TrimStartKeepsTail(s, post, isWs);
    TrimStartEmptyIff(s, isWs);
    TrimEndEmptyIff(t, isWs);
    TrimEndOfExtension(t, post, isWs);
  }

  lemma {:induction false} TrimEndOfExtension(t: string, post: string, isWs: char -> bool)
    requires TrimEnd(t, isWs) != []
    ensures StartsWith(TrimEnd(t + post, isWs), TrimEnd(t, isWs))
  {
    var u := TrimEnd(t, isWs);
    if post == [] {
      assert t + post == t;
    } else {
      var w := t + post;
      assert w[|w| - 1] == post[|post| - 1];
      assert w[..|w| - 1] == t + post[..|post| - 1];
      if isWs(w[|w| - 1]) {
        TrimEndOfExtension(t, post[..|post| - 1], isWs);
      } else {
        assert TrimEnd(w, isWs) == w;
        assert w[..|u|] == t[..|u|];
      }
    }
  }

  predicate StartsWith(s: string, prefix: string) {
    |prefix| <= |s| && s[..|prefix|] == prefix
  }

  lemma {:induction false} StartsWithConcat(a: string, b: string)
    ensures StartsWith(a + b, a)
  {
    assert (a + b)[..|a|] == a;
  }

  /** A text that differs from `prefix` at some position of `prefix` does not start with it. */
  lemma {:induction false} StartsWithAt(s: string, prefix: string, i: nat)
    requires i < |prefix| && (i >= |s| || s[i] != prefix[i])
    ensures !StartsWith(s, prefix)
  {
    if i < |s| && |prefix| <= |s| {
      assert s[..|prefix|][i] == s[i];
    }
  }

  lemma {:induction false} StartsWithTransitive(s: string, t: string, prefix: string)
    requires StartsWith(s, t) && StartsWith(t, prefix)
    ensures StartsWith(s, prefix)
  {
    assert s[..|prefix|] == t[..|prefix|];
  }

  function UpperChar(c: char): char {
    if 'a' <= c <= 'z' then (c as int - 32) as char else c
  }

  function LowerChar(c: char): char {
    if 'A' <= c <= 'Z' then (c as int + 32) as char else c
  }

  /** ASCII-only `str.upper()`. */
  function Upper(s: string): (r: string)
    ensures |r| == |s| && forall i :: 0 <= i < |s| ==> r[i] == UpperChar(s[i])
  {
    seq(|s|, i requires 0 <= i < |s| => UpperChar(s[i]))
  }

  /** ASCII-only `str.lower()`. */
  function Lower(s: string): (r: string)
    ensures |r| == |s| && forall i :: 0 <= i < |s| ==> r[i] == LowerChar(s[i])
  {
    seq(|s|, i requires 0 <= i < |s| => LowerChar(s[i]))
  }

  lemma {:induction false} UpperConcat(a: string, b: string)
    ensures Upper(a + b) == Upper(a) + Upper(b)
  {
  }

  /** Upper-casing forgets any earlier lower-casing. */
  lemma {:induction false} UpperOfLower(s: string)
    ensures Upper(Lower(s)) == Upper(s)
  {
  }

  /** Upper-casing commutes with Python whitespace stripping (no ASCII letter is whitespace). */
  lemma {:induction false} UpperTrimStart(s: string)
    ensures Upper(TrimStart(s, IsPyWhitespace)) == TrimStart(Upper(s), IsPyWhitespace)
  {
    if s != [] {
      assert Upper(s)[1..] == Upper(s[1..]);
      UpperTrimStart(s[1..]);
      if !IsPyWhitespace(s[0]) {
        assert !IsPyWhitespace(Upper(s)[0]);
      }
    }
  }

  lemma {:induction false} UpperTrimEnd(s: string)
    ensures Upper(TrimEnd(s, IsPyWhitespace)) == TrimEnd(Upper(s), IsPyWhitespace)
  {
    if s != [] {
      var n := |s| - 1;
      assert Upper(s)[..n] == Upper(s[..n]);
      UpperTrimEnd(s[..n]);
      if !IsPyWhitespace(s[n]) {
        assert !IsPyWhitespace(Upper(s)[n]);
      }
    }
  }

  /** `s.strip().upper() == s.upper().strip()` */
  lemma {:induction false} UpperStrip(s: string)
    ensures Upper(PyStrip(s)) == PyStrip(Upper(s))
  {
    UpperTrimStart(s);
    UpperTrimEnd(TrimStart(s, IsPyWhitespace));
  }

  /** Count of `c` in `s`. */
  function Occurrences(s: string, c: char): nat {
    if s == [] then 0 else (if s[0] == c then 1 else 0) + Occurrences(s[1..], c)
  }

  lemma {:induction false} OccurrencesConcat(a: string, b: string, c: char)
    ensures Occurrences(a + b, c) == Occurrences(a, c) + Occurrences(b, c)
  {
    if a == [] {
      assert a + b == b;
    } else {
      assert (a + b)[1..] == a[1..] + b;
      OccurrencesConcat(a[1..], b, c);
    }
  }

  /** A text without `c` holds no occurrence of it. */
  lemma {:induction false} OccurrencesAbsent(s: string, c: char)
    requires c !in s
    ensures Occurrences(s, c) == 0
  {
    if s != [] {
      assert forall x :: x in s[1..] ==> x in s;
      OccurrencesAbsent(s[1..], c);
    }
  }

  /** Sum of the occurrences of `c` over every part. */
  function OccurrencesIn(parts: seq<string>, c: char): nat {
    if parts == [] then 0 else Occurrences(parts[0], c) + OccurrencesIn(parts[1..], c)
  }

  /** Python `sep.join(parts)`. */
  function Join(sep: string, parts: seq<string>): string {
    if |parts| == 0 then ""
    else if |parts| == 1 then parts[0]
    else parts[0] + sep + Join(sep, parts[1..])
  }

  /** A separator without `c` adds no `c`: the joined text holds exactly the parts' ones. */
  lemma {:induction false} OccurrencesJoin(sep: string, parts: seq<string>, c: char)
    requires Occurrences(sep, c) == 0
    ensures Occurrences(Join(sep, parts), c) == OccurrencesIn(parts, c)
  {
    if |parts| == 1 {
      assert parts[1..] == [];
    } else if |parts| > 1 {
      OccurrencesJoin(sep, parts[1..], c);
      OccurrencesConcat(parts[0] + sep, Join(sep, parts[1..]), c);
      OccurrencesConcat(parts[0], sep, c);
    }
  }

  /** Joining two or more parts yields at least one separator's worth of text. */
  lemma {:induction false} JoinLength(sep: string, parts: seq<string>)
    requires |parts| >= 2
    ensures |Join(sep, parts)| >= |sep|
  {
  }
}
