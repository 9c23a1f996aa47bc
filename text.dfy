/**
 * The few Python string methods the core relies on: str.isspace() on one
 * character, str.strip(), str.lower() and str.upper(). Case mapping covers the
 * ASCII letters only.
 */
module Text {

  /** Python's str.isspace() on a single character. */
  predicate IsSpace(c: char) {
    || ('\t' <= c <= '\r')          // tab, line feed, vertical tab, form feed, carriage return
    || ('\U{1C}' <= c <= ' ')       // the four information separators and the space
    || c == '\U{85}' || c == '\U{A0}' || c == '\U{1680}'
    || ('\U{2000}' <= c <= '\U{200A}')
    || c == '\U{2028}' || c == '\U{2029}' || c == '\U{202F}' || c == '\U{205F}' || c == '\U{3000}'
  }

  /** Every character of s is white space. */
  predicate AllSpace(s: string) {
    forall i :: 0 <= i < |s| ==> IsSpace(s[i])
  }

  /** str.lstrip(): drops the longest all-white-space prefix. */
  function StripLeft(s: string): (r: string)
    ensures |r| <= |s| && r == s[|s| - |r|..]
    ensures AllSpace(s[..|s| - |r|])
    ensures r == [] || !IsSpace(r[0])
  {
    if |s| > 0 && IsSpace(s[0]) then
      var r := StripLeft(s[1..]);
      assert s[..|s| - |r|] == [s[0]] + s[1..][..|s| - 1 - |r|];
      r
    else
      assert s[..0] == [];
      s
  }

  /** str.rstrip(): drops the longest all-white-space suffix. */
  function StripRight(s: string): (r: string)
    ensures |r| <= |s| && r == s[..|r|]
    ensures AllSpace(s[|r|..])
    ensures r == [] || !IsSpace(r[|r| - 1])
  {
    if |s| > 0 && IsSpace(s[|s| - 1]) then
      var r := StripRight(s[..|s| - 1]);
      assert s[|r|..] == s[..|s| - 1][|r|..] + [s[|s| - 1]];
      r
    else
      assert s[|s|..] == [];
      s
  }

  /** str.strip() with no argument. */
  function Strip(s: string): (r: string)
    ensures |r| <= |s|
    ensures r == [] || (!IsSpace(r[0]) && !IsSpace(r[|r| - 1]))
  {
    StripRight(StripLeft(s))
  }

  function LowerChar(c: char): char {
    if 'A' <= c <= 'Z' then (c as int + 32) as char else c
  }

  function UpperChar(c: char): char {
    if 'a' <= c <= 'z' then (c as int - 32) as char else c
  }

  /** str.lower(), restricted to ASCII letters. */
  function Lower(s: string): (r: string)
    ensures |r| == |s|
  {
    seq(|s|, i requires 0 <= i < |s| => LowerChar(s[i]))
  }

  /** str.upper(), restricted to ASCII letters. */
  function Upper(s: string): (r: string)
    ensures |r| == |s|
  {
    seq(|s|, i requires 0 <= i < |s| => UpperChar(s[i]))
  }

  lemma {:induction false} StripLeftPadding(pad: string, s: string)
    requires AllSpace(pad)
    ensures StripLeft(pad + s) == StripLeft(s)
    decreases |pad|
  {
    if pad != [] {
      assert (pad + s)[0] == pad[0] && IsSpace(pad[0]);
      assert (pad + s)[1..] == pad[1..] + s;
      StripLeftPadding(pad[1..], s);
    } else {
      assert pad + s == s;
    }
  }

  lemma {:induction false} StripRightPadding(s: string, pad: string)
    requires AllSpace(pad)
    ensures StripRight(s + pad) == StripRight(s)
    decreases |pad|
  {
    if pad != [] {
      assert (s + pad)[|s + pad| - 1] == pad[|pad| - 1] && IsSpace(pad[|pad| - 1]);
      assert (s + pad)[..|s + pad| - 1] == s + pad[..|pad| - 1];
      StripRightPadding(s, pad[..|pad| - 1]);
    } else {
      assert s + pad == s;
    }
  }

  /** A string that ends in a non-space character keeps it when stripped from the left. */
  lemma {:induction false} StripLeftAppend(s: string, pad: string)
    requires StripLeft(s) != []
    ensures StripLeft(s + pad) == StripLeft(s) + pad
    decreases |s|
  {
    if IsSpace(s[0]) {
      assert (s + pad)[1..] == s[1..] + pad;
      StripLeftAppend(s[1..], pad);
    }
  }

  /** White space around a string does not change what str.strip() returns. */
  lemma StripPadding(left: string, s: string, right: string)
    requires AllSpace(left) && AllSpace(right)
    ensures Strip(left + s + right) == Strip(s)
  {
    StripTrailingSpace(left + s, right);
    StripLeadingSpace(left, s);
  }

  /** Leading white space does not change what str.strip() returns. */
  lemma StripLeadingSpace(left: string, s: string)
    requires AllSpace(left)
    ensures Strip(left + s) == Strip(s)
  {
    StripLeftPadding(left, s);
  }

  /** Trailing white space does not change what str.strip() returns. */
  lemma StripTrailingSpace(s: string, right: string)
    requires AllSpace(right)
    ensures Strip(s + right) == Strip(s)
  {
    if StripLeft(s) != [] {
      StripLeftAppend(s, right);
      StripRightPadding(StripLeft(s), right);
    } else {
      AllSpaceSlices(s);
      StripLeftPadding(s, right);
      StripLeftPadding(right, []);
      assert right + [] == right;
    }
  }

  lemma AllSpaceSlices(s: string)
    requires StripLeft(s) == []
    ensures AllSpace(s)
  {
    assert s[..|s| - 0] == s;
  }

  /** A string with no white space at either end is its own strip. */
  lemma StripUnpadded(s: string)
    requires s == [] || (!IsSpace(s[0]) && !IsSpace(s[|s| - 1]))
    ensures Strip(s) == s
  {
    assert StripLeft(s) == s;
  }

  /** str.strip() is idempotent. */
  lemma StripIdempotent(s: string)
    ensures Strip(Strip(s)) == Strip(s)
  {
    var r := Strip(s);
    assert StripLeft(r) == r;
    assert StripRight(r) == r;
  }

  /** Case mapping moves letters only, so it never turns a space into a non-space or back. */
  lemma CaseKeepsSpace(c: char)
    ensures IsSpace(LowerChar(c)) == IsSpace(c)
    ensures IsSpace(UpperChar(c)) == IsSpace(c)
  {
    if 'A' <= c <= 'Z' {
      assert 'a' <= LowerChar(c) <= 'z';
    } else if 'a' <= c <= 'z' {
      assert 'A' <= UpperChar(c) <= 'Z';
    }
  }

  /** One step of str.lstrip(). */
  lemma StripLeftHead(s: string)
    requires |s| > 0
    ensures IsSpace(s[0]) ==> StripLeft(s) == StripLeft(s[1..])
    ensures !IsSpace(s[0]) ==> StripLeft(s) == s
  {
  }

  /** One step of str.rstrip(). */
  lemma StripRightLast(s: string)
    requires |s| > 0
    ensures IsSpace(s[|s| - 1]) ==> StripRight(s) == StripRight(s[..|s| - 1])
    ensures !IsSpace(s[|s| - 1]) ==> StripRight(s) == s
  {
  }

  /** Case mapping the first character, and the rest. */
  lemma CaseHead(s: string)
    requires |s| > 0
    ensures IsSpace(Lower(s)[0]) == IsSpace(s[0]) && Lower(s)[1..] == Lower(s[1..])
    ensures IsSpace(Upper(s)[0]) == IsSpace(s[0]) && Upper(s)[1..] == Upper(s[1..])
  {
    CaseKeepsSpace(s[0]);
  }

  /** Case mapping the last character, and the rest. */
  lemma CaseLast(s: string)
    requires |s| > 0
    ensures IsSpace(Lower(s)[|s| - 1]) == IsSpace(s[|s| - 1]) && Lower(s)[..|s| - 1] == Lower(s[..|s| - 1])
    ensures IsSpace(Upper(s)[|s| - 1]) == IsSpace(s[|s| - 1]) && Upper(s)[..|s| - 1] == Upper(s[..|s| - 1])
  {
    CaseKeepsSpace(s[|s| - 1]);
  }

  lemma {:induction false} StripLeftLower(s: string)
    ensures StripLeft(Lower(s)) == Lower(StripLeft(s))
    decreases |s|
  {
    if |s| > 0 {
      CaseHead(s);
      StripLeftHead(s);
      StripLeftHead(Lower(s));
      if IsSpace(s[0]) {
        StripLeftLower(s[1..]);
      }
    }
  }

  lemma {:induction false} StripRightLower(s: string)
    ensures StripRight(Lower(s)) == Lower(StripRight(s))
    decreases |s|
  {
    if |s| > 0 {
      CaseLast(s);
      StripRightLast(s);
      StripRightLast(Lower(s));
      if IsSpace(s[|s| - 1]) {
        StripRightLower(s[..|s| - 1]);
      }
    }
  }

  /** Lower-casing and stripping commute: case mapping never turns a space into a non-space. */
  lemma StripLower(s: string)
    ensures Strip(Lower(s)) == Lower(Strip(s))
  {
    StripLeftLower(s);
    StripRightLower(StripLeft(s));
  }

  lemma {:induction false} StripLeftUpper(s: string)
    ensures StripLeft(Upper(s)) == Upper(StripLeft(s))
    decreases |s|
  {
    if |s| > 0 {
      CaseHead(s);
      StripLeftHead(s);
      StripLeftHead(Upper(s));
      if IsSpace(s[0]) {
        StripLeftUpper(s[1..]);
      }
    }
  }

  lemma {:induction false} StripRightUpper(s: string)
    ensures StripRight(Upper(s)) == Upper(StripRight(s))
    decreases |s|
  {
    if |s| > 0 {
      CaseLast(s);
      StripRightLast(s);
      StripRightLast(Upper(s));
      if IsSpace(s[|s| - 1]) {
        StripRightUpper(s[..|s| - 1]);
      }
    }
  }

  /** Upper-casing and stripping commute. */
  lemma StripUpper(s: string)
    ensures Strip(Upper(s)) == Upper(Strip(s))
  {
    StripLeftUpper(s);
    StripRightUpper(StripLeft(s));
  }

  /** Lower-casing forgets the case the input was written in. */
  lemma LowerIgnoresCase(s: string)
    ensures Lower(Upper(s)) == Lower(s)
    ensures Lower(Lower(s)) == Lower(s)
  {
  }

  /** Upper-casing forgets the case the input was written in. */
  lemma UpperIgnoresCase(s: string)
    ensures Upper(Lower(s)) == Upper(s)
    ensures Upper(Upper(s)) == Upper(s)
  {
  }
}
