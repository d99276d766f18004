/**
 * The string operations the category classifier relies on, on ASCII text:
 * `str.lower`, `str.upper`, `str.strip`, `str.title` and the `in` substring
 * test.
 */
module Text {

  predicate IsUpperChar(c: char) { 'A' <= c <= 'Z' }
  predicate IsLowerChar(c: char) { 'a' <= c <= 'z' }

  /** A letter with case: the characters `str.title` treats as inside a word. */
  predicate IsCased(c: char) { IsUpperChar(c) || IsLowerChar(c) }

  /**
   * The ASCII characters `str.strip` removes: space, tab, line feed, vertical
   * tab, form feed, carriage return, and the separators 0x1C to 0x1F.
   */
  predicate IsSpace(c: char) { c == ' ' || '\t' <= c <= '\r' || '\U{1C}' <= c <= '\U{1F}' }

  function LowerChar(c: char): (d: char)
    ensures IsCased(c) <==> IsCased(d)
    ensures !IsUpperChar(d)
  {
    if IsUpperChar(c) then (c as int + 32) as char else c
  }

  function UpperChar(c: char): (d: char)
    ensures IsCased(c) <==> IsCased(d)
    ensures !IsLowerChar(d)
  {
    if IsLowerChar(c) then (c as int - 32) as char else c
  }

  function Lower(s: string): (r: string)
    ensures |r| == |s| && forall i :: 0 <= i < |s| ==> r[i] == LowerChar(s[i])
  {
    if |s| == 0 then "" else [LowerChar(s[0])] + Lower(s[1..])
  }

  function Upper(s: string): (r: string)
    ensures |r| == |s| && forall i :: 0 <= i < |s| ==> r[i] == UpperChar(s[i])
  {
    if |s| == 0 then "" else [UpperChar(s[0])] + Upper(s[1..])
  }

  /** `s` with leading and trailing whitespace removed. */
  function Strip(s: string): string {
    StripEnd(StripStart(s))
  }

  function StripStart(s: string): (r: string)
    ensures |r| <= |s|
  {
    if |s| > 0 && IsSpace(s[0]) then StripStart(s[1..]) else s
  }

  function StripEnd(s: string): (r: string)
    ensures |r| <= |s|
  {
    if |s| > 0 && IsSpace(s[|s| - 1]) then StripEnd(s[..|s| - 1]) else s
  }

  /**
   * `str.title`: a cased letter is upper-cased when it starts a word (it
   * follows no cased letter) and lower-cased otherwise; other characters
   * stay as they are.
   */
  function Title(s: string): string {
    TitleAfter(s, false)
  }

  function TitleAfter(s: string, inWord: bool): (r: string)
    ensures |r| == |s|
  {
    if |s| == 0 then ""
    else [if inWord then LowerChar(s[0]) else UpperChar(s[0])] + TitleAfter(s[1..], IsCased(s[0]))
  }

  /** `sub` occurs in `s` starting at index `i`. */
  predicate OccursAt(s: string, sub: string, i: int) {
    0 <= i <= |s| - |sub| && s[i..i + |sub|] == sub
  }

  /** `sub in s`: `sub` occurs in `s` as a contiguous substring. */
  predicate Contains(s: string, sub: string) {
    exists i :: 0 <= i <= |s| - |sub| && OccursAt(s, sub, i)
  }

  // How the operations compose.

  /** Lower-casing twice is lower-casing once. */
  lemma LowerIdempotent(s: string)
    ensures Lower(Lower(s)) == Lower(s)
  {
  }

  /** Upper-casing first does not change what lower-casing gives. */
  lemma LowerOfUpper(s: string)
    ensures Lower(Upper(s)) == Lower(s)
  {
    forall i | 0 <= i < |s|
      ensures Lower(Upper(s))[i] == Lower(s)[i]
    {
      var c := s[i];
      if IsLowerChar(c) {
        assert UpperChar(c) == (c as int - 32) as char;
      }
    }
  }

  /** Title-casing first does not change what lower-casing gives. */
  lemma {:induction false} LowerOfTitle(s: string, inWord: bool)
    ensures Lower(TitleAfter(s, inWord)) == Lower(s)
  {
    if |s| > 0 {
      LowerOfTitle(s[1..], IsCased(s[0]));
      var c := s[0];
      if IsLowerChar(c) {
        assert UpperChar(c) == (c as int - 32) as char;
      }
      assert LowerChar(if inWord then LowerChar(c) else UpperChar(c)) == LowerChar(c);
      assert TitleAfter(s, inWord) == [if inWord then LowerChar(c) else UpperChar(c)] + TitleAfter(s[1..], IsCased(c));
      LowerAppend([if inWord then LowerChar(c) else UpperChar(c)], TitleAfter(s[1..], IsCased(c)));
      LowerAppend([c], s[1..]);
      assert [c] + s[1..] == s;
    }
  }

  lemma LowerAppend(a: string, b: string)
    ensures Lower(a + b) == Lower(a) + Lower(b)
  {
  }

  /** Lower-casing keeps every character's whitespace status, so it commutes with stripping. */
  lemma {:induction false} StripStartLower(s: string)
    ensures StripStart(Lower(s)) == Lower(StripStart(s))
  {
    if |s| > 0 {
      assert Lower(s)[1..] == Lower(s[1..]);
      StripStartLower(s[1..]);
    }
  }

  lemma {:induction false} StripEndLower(s: string)
    ensures StripEnd(Lower(s)) == Lower(StripEnd(s))
  {
    if |s| > 0 {
      assert Lower(s)[..|s| - 1] == Lower(s[..|s| - 1]);
      StripEndLower(s[..|s| - 1]);
    }
  }

  lemma StripLower(s: string)
    ensures Strip(Lower(s)) == Lower(Strip(s))
  {
    StripStartLower(s);
    StripEndLower(StripStart(s));
  }

  lemma {:induction false} StripStartNoSpace(s: string)
    ensures var r := StripStart(s); |r| > 0 ==> !IsSpace(r[0])
  {
    if |s| > 0 && IsSpace(s[0]) {
      StripStartNoSpace(s[1..]);
    }
  }

  lemma {:induction false} StripEndKeepsStart(s: string)
    requires |s| > 0 && !IsSpace(s[0])
    ensures var r := StripEnd(s); |r| > 0 && r[0] == s[0]
  {
    if IsSpace(s[|s| - 1]) {
      StripEndKeepsStart(s[..|s| - 1]);
    }
  }

  lemma {:induction false} StripEndNoSpace(s: string)
    ensures var r := StripEnd(s); |r| > 0 ==> !IsSpace(r[|r| - 1])
  {
    if |s| > 0 && IsSpace(s[|s| - 1]) {
      StripEndNoSpace(s[..|s| - 1]);
    }
  }

  /** Stripping leaves no whitespace at either end. */
  lemma StripTrims(s: string)
    ensures var r := Strip(s); |r| > 0 ==> !IsSpace(r[0]) && !IsSpace(r[|r| - 1])
  {
    var m := StripStart(s);
    StripStartNoSpace(s);
    StripEndNoSpace(m);
    if |m| > 0 {
      StripEndKeepsStart(m);
    }
  }
}
