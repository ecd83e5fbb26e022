/** String operations the lesson code relies on: Go's `strings.ToLower`,
    `strings.Contains` and `strings.ContainsAny`, and JavaScript's
    `String.prototype.trim`. Case mapping covers ASCII letters only. */
module Text {

  /** An ASCII capital letter, the only characters this model lowercases. */
  predicate IsAsciiUpper(c: char) {
    'A' <= c <= 'Z'
  }

  predicate IsAsciiDigit(c: char) {
    '0' <= c <= '9'
  }

  /** One character through `strings.ToLower`, restricted to ASCII. */
  function LowerChar(c: char): (d: char)
    ensures !IsAsciiUpper(d)
    ensures IsAsciiUpper(c) ==> d as int == c as int + 32
    ensures !IsAsciiUpper(c) ==> d == c
  {
    if IsAsciiUpper(c) then (c as int + 32) as char else c
  }

  /** `strings.ToLower` on a string whose letters are ASCII. */
  function ToLower(s: string): (r: string)
    ensures |r| == |s|
    ensures forall i :: 0 <= i < |s| ==> r[i] == LowerChar(s[i])
  {
    seq(|s|, i requires 0 <= i < |s| => LowerChar(s[i]))
  }

  /** Lowercasing twice is lowercasing once. */
  lemma ToLowerIdempotent(s: string)
    ensures ToLower(ToLower(s)) == ToLower(s)
  {
  }

  /** Lowercasing neither creates nor removes digits. */
  lemma ToLowerKeepsDigits(s: string, i: int)
    requires 0 <= i < |s|
    ensures IsAsciiDigit(ToLower(s)[i]) <==> IsAsciiDigit(s[i])
  {
  }

  /** `t` occurs in `s` starting at position `i`. */
  predicate OccursAt(s: string, t: string, i: int) {
    0 <= i && i + |t| <= |s| && s[i..i + |t|] == t
  }

  /** `strings.Contains(s, t)`: `t` occurs in `s` as a contiguous run.
      The empty string occurs in every string. */
  predicate Contains(s: string, t: string)
    ensures Contains(s, t) ==> |t| <= |s|
    ensures t == [] ==> Contains(s, t)
    ensures t == s ==> Contains(s, t)
  {
    assert OccursAt(s, [], 0);
    assert OccursAt(s, s, 0);
    exists i :: 0 <= i <= |s| - |t| && OccursAt(s, t, i)
  }

  /** A string that contains `t` contains its first character. */
  lemma ContainsHasFirstChar(s: string, t: string)
    ensures Contains(s, t) && t != [] ==> t[0] in s
  {
    if Contains(s, t) && t != [] {
      var i :| 0 <= i <= |s| - |t| && OccursAt(s, t, i);
      assert s[i] == s[i..i + |t|][0];
    }
  }

  /** Searching for a one-character string is membership of that character. */
  lemma ContainsSingle(s: string, c: char)
    ensures Contains(s, [c]) <==> c in s
  {
    if c in s {
      var i :| 0 <= i < |s| && s[i] == c;
      assert OccursAt(s, [c], i);
    }
    ContainsHasFirstChar(s, [c]);
  }

  /** `strings.ContainsAny(s, chars)`: some character of `s` is one of `chars`. */
  predicate ContainsAny(s: string, chars: string)
    ensures ContainsAny(s, chars) <==> exists j :: 0 <= j < |chars| && chars[j] in s
  {
    assert (exists j :: 0 <= j < |chars| && chars[j] in s) ==> exists i :: 0 <= i < |s| && s[i] in chars by {
      if exists j :: 0 <= j < |chars| && chars[j] in s {
        var j :| 0 <= j < |chars| && chars[j] in s;
        var i :| 0 <= i < |s| && s[i] == chars[j];
        assert s[i] in chars;
      }
    }
    exists i :: 0 <= i < |s| && s[i] in chars
  }

  /** The white space that `String.prototype.trim` strips: the ECMAScript
      WhiteSpace characters (tab, vertical tab, form feed, space, no-break
      space, byte order mark and the Unicode space separators) and the
      LineTerminator characters. */
  predicate IsJsSpace(c: char) {
    c == '\t' || c == '\n' || c == '\U{000B}' || c == '\U{000C}' || c == '\r' || c == ' '
    || c == '\U{00A0}' || c == '\U{1680}' || ('\U{2000}' <= c <= '\U{200A}')
    || c == '\U{2028}' || c == '\U{2029}' || c == '\U{202F}' || c == '\U{205F}'
    || c == '\U{3000}' || c == '\U{FEFF}'
  }

  /** Drops leading white space. */
  function TrimStart(s: string): (r: string)
    ensures |r| <= |s| && r == s[|s| - |r|..]
    ensures r != [] ==> !IsJsSpace(r[0])
    ensures forall k :: 0 <= k < |s| - |r| ==> IsJsSpace(s[k])
  {
    if s != [] && IsJsSpace(s[0]) then TrimStart(s[1..]) else s
  }

  /** Drops trailing white space. */
  function TrimEnd(s: string): (r: string)
    ensures |r| <= |s| && r == s[..|r|]
    ensures r != [] ==> !IsJsSpace(r[|r| - 1])
    ensures forall k :: |r| <= k < |s| ==> IsJsSpace(s[k])
  {
    if s != [] && IsJsSpace(s[|s| - 1]) then TrimEnd(s[..|s| - 1]) else s
  }

  /** `String.prototype.trim`. */
  function Trim(s: string): (r: string)
    ensures |r| <= |s|
    ensures r != [] ==> !IsJsSpace(r[0]) && !IsJsSpace(r[|r| - 1])
  {
    var a := TrimStart(s);
    var r := TrimEnd(a);
    assert r != [] ==> r[0] == a[0];
    r
  }

  /** `r` is `s` with the white space at its two ends removed, `r` itself
      starting at position `i` of `s`. */
  ghost predicate IsCoreOf(r: string, s: string, i: int) {
    0 <= i && i + |r| <= |s| && r == s[i..i + |r|]
    && (forall k :: 0 <= k < i ==> IsJsSpace(s[k]))
    && (forall k :: i + |r| <= k < |s| ==> IsJsSpace(s[k]))
    && (r != [] ==> !IsJsSpace(r[0]) && !IsJsSpace(r[|r| - 1]))
  }

  /** The trimmed string is a contiguous part of the input, starting where
      the leading white space ends; white space was removed at both ends and
      none is left at either end. */
  lemma TrimIsCore(s: string)
    ensures IsCoreOf(Trim(s), s, |s| - |TrimStart(s)|)
  {
    CoreOfTwoTrims(s, TrimStart(s), Trim(s));
  }

  /** A suffix with its leading white space gone, cut again to a prefix with
      the trailing white space gone, is the core of the original. */
  lemma CoreOfTwoTrims(s: string, a: string, r: string)
    requires |a| <= |s| && a == s[|s| - |a|..]
    requires a != [] ==> !IsJsSpace(a[0])
    requires forall k :: 0 <= k < |s| - |a| ==> IsJsSpace(s[k])
    requires |r| <= |a| && r == a[..|r|]
    requires r != [] ==> !IsJsSpace(r[|r| - 1])
    requires forall k :: |r| <= k < |a| ==> IsJsSpace(a[k])
    ensures IsCoreOf(r, s, |s| - |a|)
  {
    var i := |s| - |a|;
    assert r == s[i..i + |r|];
    forall k | i + |r| <= k < |s| ensures IsJsSpace(s[k]) {
      assert s[k] == a[k - i];
    }
    if r != [] {
      assert r[0] == a[0];
    }
  }

  /** White space only: the leading trim removes everything. */
  lemma {:induction false} TrimStartOfBlank(s: string)
    requires forall k :: 0 <= k < |s| ==> IsJsSpace(s[k])
    ensures TrimStart(s) == []
  {
    if s != [] {
      TrimStartOfBlank(s[1..]);
    }
  }

  /** The trimmed answer is empty exactly when the input is all white space. */
  lemma TrimEmptyIffBlank(s: string)
    ensures Trim(s) == [] <==> forall k :: 0 <= k < |s| ==> IsJsSpace(s[k])
  {
    if forall k :: 0 <= k < |s| ==> IsJsSpace(s[k]) {
      TrimStartOfBlank(s);
    }
  }

  /** Leading white space in front of a string that does not start with
      white space is exactly what the leading trim removes. */
  lemma {:induction false} TrimStartSkips(pad: string, s: string)
    requires forall k :: 0 <= k < |pad| ==> IsJsSpace(pad[k])
    requires s == [] || !IsJsSpace(s[0])
    ensures TrimStart(pad + s) == s
  {
    if pad == [] {
      assert pad + s == s;
    } else {
      assert (pad + s)[1..] == pad[1..] + s;
      TrimStartSkips(pad[1..], s);
    }
  }

  /** Trailing white space behind a string that does not end with white
      space is exactly what the trailing trim removes. */
  lemma {:induction false} TrimEndSkips(s: string, pad: string)
    requires forall k :: 0 <= k < |pad| ==> IsJsSpace(pad[k])
    requires s == [] || !IsJsSpace(s[|s| - 1])
    ensures TrimEnd(s + pad) == s
  {
    if pad == [] {
      assert s + pad == s;
    } else {
      assert (s + pad)[..|s + pad| - 1] == s + pad[..|pad| - 1];
      TrimEndSkips(s, pad[..|pad| - 1]);
    }
  }

  /** Trimming text padded with white space on both sides gives back the
      text, provided the text itself neither starts nor ends with white space. */
  lemma TrimPadded(before: string, core: string, after: string)
    requires forall k :: 0 <= k < |before| ==> IsJsSpace(before[k])
    requires forall k :: 0 <= k < |after| ==> IsJsSpace(after[k])
    requires core != [] && !IsJsSpace(core[0]) && !IsJsSpace(core[|core| - 1])
    ensures Trim(before + core + after) == core
  {
    assert before + core + after == before + (core + after);
    TrimStartSkips(before, core + after);
    TrimEndSkips(core, after);
  }

  /** Trimming a trimmed string changes nothing. */
  lemma TrimIdempotent(s: string)
    ensures Trim(Trim(s)) == Trim(s)
  {
    var r := Trim(s);
    if r != [] {
      assert [] + r + [] == r;
      TrimPadded([], r, []);
    }
  }
}
