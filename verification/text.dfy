/** String operations the source borrows from Python's `str` and
    JavaScript's `String`: case mapping, whitespace stripping, substring
    search, splitting on a separator and joining with one. */
module Text {
  import opened Wrappers

  // ---------------------------------------------------------------------
  // Whitespace. Python's `str.strip()` and JavaScript's `String.trim()`
  // remove different sets of characters, so both are written out.
  // ---------------------------------------------------------------------

  /** The characters for which Python's `str.isspace()` holds. */
  predicate PyIsSpace(c: char) {
    || c == ' '
    || ('\t' <= c <= '\r')
    || ('\U{1C}' <= c <= '\U{1F}')
    || c == '\U{85}' || c == '\U{A0}' || c == '\U{1680}'
    || ('\U{2000}' <= c <= '\U{200A}')
    || c == '\U{2028}' || c == '\U{2029}' || c == '\U{202F}'
    || c == '\U{205F}' || c == '\U{3000}'
  }

  /** The WhiteSpace and LineTerminator characters of ECMAScript, which
      `String.prototype.trim` removes. */
  predicate JsIsSpace(c: char) {
    || c == ' '
    || ('\t' <= c <= '\r')
    || c == '\U{A0}' || c == '\U{1680}'
    || ('\U{2000}' <= c <= '\U{200A}')
    || c == '\U{2028}' || c == '\U{2029}' || c == '\U{202F}'
    || c == '\U{205F}' || c == '\U{3000}' || c == '\U{FEFF}'
  }

  /** How many `ws` characters `s` starts with. */
  function LeadingCount(s: string, ws: char -> bool): (n: nat)
    ensures n <= |s|
    ensures forall i :: 0 <= i < n ==> ws(s[i])
    ensures n < |s| ==> !ws(s[n])
  {
    if |s| > 0 && ws(s[0]) then 1 + LeadingCount(s[1..], ws) else 0
  }

  /** How many `ws` characters `s` ends with. */
  function TrailingCount(s: string, ws: char -> bool): (n: nat)
    ensures n <= |s|
    ensures forall i :: |s| - n <= i < |s| ==> ws(s[i])
    ensures n < |s| ==> !ws(s[|s| - n - 1])
  {
    if |s| > 0 && ws(s[|s| - 1]) then 1 + TrailingCount(s[..|s| - 1], ws) else 0
  }

  /** `s` with leading and trailing `ws` characters removed: the longest
      infix of `s` that neither starts nor ends with one, and everything
      around it is `ws`. */
  function Strip(s: string, ws: char -> bool): (r: string)
    ensures exists i :: OccursAt(s, r, i)
                     && (forall j :: 0 <= j < i ==> ws(s[j]))
                     && (forall j :: i + |r| <= j < |s| ==> ws(s[j]))
    ensures |r| > 0 ==> !ws(r[0]) && !ws(r[|r| - 1])
  {
    var a := LeadingCount(s, ws);
    var b := |s| - TrailingCount(s[a..], ws);
    assert forall j :: b <= j < |s| ==> s[j] == s[a..][j - a];
    assert OccursAt(s, s[a..b], a);
    s[a..b]
  }

  /** A string that neither starts nor ends with a `ws` character strips to itself. */
  lemma StripUnpadded(s: string, ws: char -> bool)
    requires |s| > 0 && !ws(s[0]) && !ws(s[|s| - 1])
    ensures Strip(s, ws) == s
  {
    assert LeadingCount(s, ws) == 0;
    assert TrailingCount(s, ws) == 0;
  }

  /** Stripping removes exactly the whitespace padding around a word that
      neither starts nor ends with whitespace. */
  lemma StripPadded(pre: string, w: string, post: string, ws: char -> bool)
    requires forall i :: 0 <= i < |pre| ==> ws(pre[i])
    requires forall i :: 0 <= i < |post| ==> ws(post[i])
    requires |w| > 0 && !ws(w[0]) && !ws(w[|w| - 1])
    ensures Strip(pre + w + post, ws) == w
  {
    var s := pre + w + post;
    var a := LeadingCount(s, ws);
    assert s[|pre|] == w[0];
    assert forall i :: 0 <= i < |pre| ==> s[i] == pre[i];
    assert a == |pre|;
    var rest := s[a..];
    assert rest == w + post;
    var t := TrailingCount(rest, ws);
    assert rest[|w| - 1] == w[|w| - 1];
    assert forall i :: |w| <= i < |rest| ==> rest[i] == post[i - |w|];
    assert t == |post|;
    assert s[a..|s| - t] == w;
  }

  /** Python's `s.strip()`. */
  function PyStrip(s: string): string {
    Strip(s, PyIsSpace)
  }

  /** JavaScript's `s.trim()`. */
  function JsTrim(s: string): string {
    Strip(s, JsIsSpace)
  }

  /** A string strips to the empty string exactly when it is made only of
      `ws` characters. */
  lemma StripEmptyIff(s: string, ws: char -> bool)
    ensures Strip(s, ws) == "" <==> forall i :: 0 <= i < |s| ==> ws(s[i])
  {
    var a := LeadingCount(s, ws);
    if forall i :: 0 <= i < |s| ==> ws(s[i]) {
      assert a == |s|;
    }
  }

  /** Stripping twice is stripping once. */
  lemma StripIdempotent(s: string, ws: char -> bool)
    ensures Strip(Strip(s, ws), ws) == Strip(s, ws)
  {
    var r := Strip(s, ws);
    if |r| > 0 {
      assert LeadingCount(r, ws) == 0;
      assert TrailingCount(r, ws) == 0;
    }
  }

  // ---------------------------------------------------------------------
  // Case mapping (ASCII letters only).
  // ---------------------------------------------------------------------

  predicate IsUpperAscii(c: char) { 'A' <= c <= 'Z' }
  predicate IsLowerAscii(c: char) { 'a' <= c <= 'z' }

  function LowerChar(c: char): (r: char)
    ensures !IsUpperAscii(r)
  {
    if IsUpperAscii(c) then (c as int + 32) as char else c
  }

  function UpperChar(c: char): (r: char)
    ensures !IsLowerAscii(r)
  {
    if IsLowerAscii(c) then (c as int - 32) as char else c
  }

  /** Lower-casing never turns a character into whitespace or out of it. */
  lemma LowerCharSpace(c: char, ws: char -> bool)
    requires ws == PyIsSpace || ws == JsIsSpace
    ensures ws(LowerChar(c)) <==> ws(c)
  {
    if IsUpperAscii(c) {
      assert IsLowerAscii(LowerChar(c));
    }
  }

  /** Python's `str.lower()` / JavaScript's `toLowerCase()`, on ASCII letters. */
  function Lower(s: string): (r: string)
    ensures |r| == |s|
    ensures forall i :: 0 <= i < |r| ==> r[i] == LowerChar(s[i])
  {
    if |s| == 0 then "" else [LowerChar(s[0])] + Lower(s[1..])
  }

  /** Python's `str.capitalize()`: first character upper-case, the rest
      lower-case (ASCII letters). */
  function Capitalize(s: string): (r: string)
    ensures |r| == |s|
    ensures |s| > 0 ==> r[0] == UpperChar(s[0]) && r[1..] == Lower(s[1..])
  {
    if |s| == 0 then "" else [UpperChar(s[0])] + Lower(s[1..])
  }

  /** Lower-casing leaves no upper-case letter, so doing it twice changes nothing. */
  lemma LowerIdempotent(s: string)
    ensures Lower(Lower(s)) == Lower(s)
  {
  }

  /** Capitalising an already-capitalised string changes nothing. */
  lemma CapitalizeIdempotent(s: string)
    ensures Capitalize(Capitalize(s)) == Capitalize(s)
  {
    if |s| > 0 {
      var c := Capitalize(s);
      assert UpperChar(c[0]) == c[0];
      LowerIdempotent(s[1..]);
    }
  }

  // ---------------------------------------------------------------------
  // Substrings.
  // ---------------------------------------------------------------------

  /** JavaScript's `s.startsWith(p)`. */
  predicate StartsWith(s: string, p: string) {
    |p| <= |s| && s[..|p|] == p
  }

  /** `sub` occurs in `s` starting at position `i`. */
  predicate OccursAt(s: string, sub: string, i: int) {
    0 <= i && i + |sub| <= |s| && s[i..i + |sub|] == sub
  }

  /** Python's `sub in s` / JavaScript's `s.includes(sub)`. */
  predicate Contains(s: string, sub: string) {
    exists i :: 0 <= i <= |s| - |sub| && OccursAt(s, sub, i)
  }

  /** Every string contains the empty string. */
  lemma ContainsEmpty(s: string)
    ensures Contains(s, "")
  {
    assert OccursAt(s, "", 0);
  }

  /** The first position of `c` in `s`. */
  function FirstIndexOf(s: string, c: char): (r: Option<nat>)
    ensures r.None? <==> c !in s
    ensures r.Some? ==> r.value < |s| && s[r.value] == c && c !in s[..r.value]
  {
    if |s| == 0 then None
    else if s[0] == c then Some(0)
    else match FirstIndexOf(s[1..], c)
      case None => None
      case Some(k) =>
        assert s[..k + 1] == [s[0]] + s[1..][..k];
        Some(k + 1)
  }

  /** The last position of `c` in `s`. */
  function LastIndexOf(s: string, c: char): (r: Option<nat>)
    ensures r.None? <==> c !in s
    ensures r.Some? ==> r.value < |s| && s[r.value] == c && c !in s[r.value + 1..]
  {
    if |s| == 0 then None
    else if s[|s| - 1] == c then Some(|s| - 1)
    else
      var init := s[..|s| - 1];
      assert s == init + [s[|s| - 1]];
      match LastIndexOf(init, c)
      case None => None
      case Some(k) =>
        assert s[k + 1..] == init[k + 1..] + [s[|s| - 1]];
        Some(k)
  }

  // ---------------------------------------------------------------------
  // Joining and splitting.
  // ---------------------------------------------------------------------

  /** Python's `sep.join(parts)` / JavaScript's `parts.join(sep)`. */
  function Join(parts: seq<string>, sep: string): string {
    if |parts| == 0 then ""
    else if |parts| == 1 then parts[0]
    else parts[0] + sep + Join(parts[1..], sep)
  }

  /** JavaScript's `s.split(sep)` for a non-empty separator: the pieces
      between the non-overlapping occurrences of `sep`, found left to right. */
  function Split(s: string, sep: string): (parts: seq<string>)
    requires |sep| > 0
    ensures |parts| >= 1
    ensures |parts[0]| <= |s| && s[..|parts[0]|] == parts[0]
    decreases |s|
  {
    if |s| < |sep| then [s]
    else if s[..|sep|] == sep then [""] + Split(s[|sep|..], sep)
    else
      var rest := Split(s[1..], sep);
      assert s[..1 + |rest[0]|] == [s[0]] + rest[0];
      [[s[0]] + rest[0]] + rest[1..]
  }

  /** Joining the pieces of a split with the same separator gives back the
      original string. */
  lemma {:induction false} SplitJoin(s: string, sep: string)
    requires |sep| > 0
    ensures Join(Split(s, sep), sep) == s
    decreases |s|
  {
    if |s| < |sep| {
    } else if s[..|sep|] == sep {
      var tail := Split(s[|sep|..], sep);
      SplitJoin(s[|sep|..], sep);
      assert ([""] + tail)[1..] == tail;
      assert s == s[..|sep|] + s[|sep|..];
    } else {
      var rest := Split(s[1..], sep);
      SplitJoin(s[1..], sep);
      var parts := [[s[0]] + rest[0]] + rest[1..];
      assert s == [s[0]] + s[1..];
      if |rest| > 1 {
        assert parts[1..] == rest[1..];
      }
    }
  }

  /** No piece of a split contains the separator. */
  lemma {:induction false} SplitPiecesFree(s: string, sep: string)
    requires |sep| > 0
    ensures forall k :: 0 <= k < |Split(s, sep)| ==> !Contains(Split(s, sep)[k], sep)
    decreases |s|
  {
    var parts := Split(s, sep);
    if |s| < |sep| {
    } else if s[..|sep|] == sep {
      SplitPiecesFree(s[|sep|..], sep);
      assert forall k :: 1 <= k < |parts| ==> parts[k] == Split(s[|sep|..], sep)[k - 1];
    } else {
      var rest := Split(s[1..], sep);
      SplitPiecesFree(s[1..], sep);
      var first := [s[0]] + rest[0];
      assert parts[0] == first;
      assert forall k :: 1 <= k < |parts| ==> parts[k] == rest[k];
      if Contains(first, sep) {
        var i :| 0 <= i <= |first| - |sep| && OccursAt(first, sep, i);
        // At 0 the occurrence would start `s`; later it would lie in `rest[0]`.
        if i > 0 {
          assert OccursAt(rest[0], sep, i - 1);
        }
      }
    }
  }
}
