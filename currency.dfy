/**
 * `indian_currency_format` (dashboard/views.py): the decimal digits of an
 * amount grouped the Indian way, the last three together and every two
 * before them, as in 12,34,567.
 */
module Currency {

  function Digit(d: nat): (c: char)
    requires d < 10
    ensures '0' <= c <= '9'
  {
    "0123456789"[d]
  }

  predicate IsDigits(s: string) {
    forall k :: 0 <= k < |s| ==> '0' <= s[k] <= '9'
  }

  /** `str(n)` for a natural number: its decimal digits, without leading zeros. */
  function NatToString(n: nat): (s: string)
    ensures |s| >= 1 && IsDigits(s)
    ensures s[0] == '0' ==> n == 0
  {
    if n < 10 then [Digit(n)] else NatToString(n / 10) + [Digit(n % 10)]
  }

  /** The value of a string of decimal digits. */
  function DigitsValue(s: string): nat
    requires IsDigits(s)
  {
    if |s| == 0 then 0 else 10 * DigitsValue(s[..|s| - 1]) + (s[|s| - 1] - '0') as nat
  }

  /** Reading the digits back gives the number. */
  lemma {:induction false} NatToStringValue(n: nat)
    ensures DigitsValue(NatToString(n)) == n
  {
    var s := NatToString(n);
    if n >= 10 {
      NatToStringValue(n / 10);
      assert s[..|s| - 1] == NatToString(n / 10);
      DigitValue(n % 10);
    } else {
      assert s[..0] == [];
      DigitValue(n);
    }
  }

  lemma DigitValue(d: nat)
    requires d < 10
    ensures (Digit(d) - '0') as nat == d
  {
  }

  /** The pieces `other[max(i-2,0):i]` for `i` in `range(i, 0, -2)`, right to left. */
  function ChunksFrom(other: string, i: int): seq<string>
    requires i <= |other|
    decreases i
  {
    if i <= 0 then [] else [other[Max(i - 2, 0)..i]] + ChunksFrom(other, i - 2)
  }

  function Max(a: int, b: int): int {
    if a >= b then a else b
  }

  function Reverse<T>(xs: seq<T>): seq<T> {
    if |xs| == 0 then [] else Reverse(xs[1..]) + [xs[0]]
  }

  /** `','.join(xs)`. */
  function Join(xs: seq<string>): string {
    if |xs| == 0 then ""
    else if |xs| == 1 then xs[0]
    else Join(xs[..|xs| - 1]) + "," + xs[|xs| - 1]
  }

  /** `''.join(xs)`. */
  function Flatten(xs: seq<string>): string {
    if |xs| == 0 then "" else Flatten(xs[..|xs| - 1]) + xs[|xs| - 1]
  }

  function IndianFormat(n: nat): (r: string)
    ensures |NatToString(n)| <= 3 ==> r == NatToString(n)
  {
    GroupDigits(NatToString(n))
  }

  /** The grouping applied to the decimal string `s`. */
  function GroupDigits(s: string): string {
    if |s| <= 3 then s
    else
      var lastThree := s[|s| - 3..];
      var other := s[..|s| - 3];
      Join(Reverse(ChunksFrom(other, |other|))) + "," + lastThree
  }

  /** The groups the formatted string is made of, left to right. */
  function Groups(s: string): seq<string> {
    if |s| <= 3 then [s]
    else
      var other := s[..|s| - 3];
      Reverse(ChunksFrom(other, |other|)) + [s[|s| - 3..]]
  }

  function RemoveCommas(s: string): string {
    if |s| == 0 then "" else RemoveCommas(s[..|s| - 1]) + (if s[|s| - 1] == ',' then "" else [s[|s| - 1]])
  }

  /** No comma at either end and no two commas in a row. */
  predicate WellSeparated(r: string) {
    && |r| > 0 && r[0] != ',' && r[|r| - 1] != ','
    && forall k :: 0 <= k < |r| - 1 ==> !(r[k] == ',' && r[k + 1] == ',')
  }

  // The chunks of the leading digits.

  /** Read left to right, the chunks of `other[..i]` spell it out. */
  lemma {:induction false} ChunksFlatten(other: string, i: int)
    requires 0 <= i <= |other|
    ensures Flatten(Reverse(ChunksFrom(other, i))) == other[..i]
    decreases i
  {
    if i > 0 {
      var piece := other[Max(i - 2, 0)..i];
      var tail := ChunksFrom(other, i - 2);
      assert ChunksFrom(other, i) == [piece] + tail;
      ReverseCons(piece, tail);
      FlattenAppend(Reverse(tail), piece);
      var before := if i <= 2 then "" else other[..i - 2];
      if i <= 2 {
        assert tail == [] && Reverse(tail) == [];
      } else {
        ChunksFlatten(other, i - 2);
      }
      assert Flatten(Reverse(tail)) == before;
      assert before + piece == other[..i];
    }
  }

  /** The first piece has one or two characters and every later one exactly two. */
  predicate ChunkSizes(cs: seq<string>) {
    && |cs| > 0
    && 1 <= |cs[0]| <= 2
    && forall k :: 0 < k < |cs| ==> |cs[k]| == 2
  }

  lemma {:induction false} ChunksSizes(other: string, i: int)
    requires 0 < i <= |other|
    ensures ChunkSizes(Reverse(ChunksFrom(other, i)))
    decreases i
  {
    var piece := other[Max(i - 2, 0)..i];
    var tail := ChunksFrom(other, i - 2);
    assert ChunksFrom(other, i) == [piece] + tail;
    ReverseCons(piece, tail);
    if i <= 2 {
      assert Reverse(tail) == [];
      assert Reverse(ChunksFrom(other, i)) == [piece];
    } else {
      ChunksSizes(other, i - 2);
      assert |piece| == 2;
      SizesAppend(Reverse(tail), piece);
    }
  }

  lemma SizesAppend(cs: seq<string>, piece: string)
    requires ChunkSizes(cs) && |piece| == 2
    ensures ChunkSizes(cs + [piece])
  {
    var ds := cs + [piece];
    forall k | 0 < k < |ds|
      ensures |ds[k]| == 2
    {
      if k < |cs| {
        assert ds[k] == cs[k];
      }
    }
  }

  lemma FlattenAppend(xs: seq<string>, x: string)
    ensures Flatten(xs + [x]) == Flatten(xs) + x
  {
    assert (xs + [x])[..|xs|] == xs;
  }

  lemma ReverseCons<T>(x: T, xs: seq<T>)
    ensures Reverse([x] + xs) == Reverse(xs) + [x]
  {
    assert ([x] + xs)[1..] == xs;
  }

  // Commas.

  lemma {:induction false} RemoveCommasAppend(a: string, b: string)
    ensures RemoveCommas(a + b) == RemoveCommas(a) + RemoveCommas(b)
    decreases |b|
  {
    if |b| > 0 {
      assert (a + b)[..|a + b| - 1] == a + b[..|b| - 1];
      RemoveCommasAppend(a, b[..|b| - 1]);
    } else {
      assert a + b == a;
    }
  }

  lemma {:induction false} RemoveCommasNone(s: string)
    requires forall k :: 0 <= k < |s| ==> s[k] != ','
    ensures RemoveCommas(s) == s
  {
    if |s| > 0 {
      RemoveCommasNone(s[..|s| - 1]);
    }
  }

  /** Joining comma-free pieces with commas, then deleting the commas, concatenates the pieces. */
  lemma {:induction false} RemoveCommasJoin(xs: seq<string>)
    requires forall j, k :: 0 <= j < |xs| && 0 <= k < |xs[j]| ==> xs[j][k] != ','
    ensures RemoveCommas(Join(xs)) == Flatten(xs)
  {
    if |xs| == 1 {
      RemoveCommasNone(xs[0]);
      assert Flatten(xs) == Flatten([]) + xs[0];
    } else if |xs| > 1 {
      var init := xs[..|xs| - 1];
      RemoveCommasJoin(init);
      RemoveCommasNone(xs[|xs| - 1]);
      RemoveCommasAppend(Join(init) + ",", xs[|xs| - 1]);
      RemoveCommasAppend(Join(init), ",");
      assert RemoveCommas(",") == "";
    }
  }

  /** Joining non-empty comma-free pieces never puts a comma at an end or two in a row. */
  lemma {:induction false} JoinWellSeparated(xs: seq<string>)
    requires |xs| > 0
    requires forall j :: 0 <= j < |xs| ==> |xs[j]| > 0
    requires forall j, k :: 0 <= j < |xs| && 0 <= k < |xs[j]| ==> xs[j][k] != ','
    ensures WellSeparated(Join(xs))
  {
    if |xs| == 1 {
      assert Join(xs) == xs[0];
    } else {
      var init, last := xs[..|xs| - 1], xs[|xs| - 1];
      JoinWellSeparated(init);
      var a := Join(init);
      var r := a + "," + last;
      assert Join(xs) == r;
      forall k | 0 <= k < |r| - 1
        ensures !(r[k] == ',' && r[k + 1] == ',')
      {
        if k < |a| - 1 {
          assert r[k] == a[k] && r[k + 1] == a[k + 1];
        } else if k == |a| - 1 {
          assert r[k] == a[|a| - 1];
        } else if k == |a| {
          assert r[k + 1] == last[0];
        } else {
          assert r[k] == last[k - |a| - 1];
        }
      }
    }
  }

  // The format.

  /** The formatted string is its groups joined by commas. */
  lemma FormatIsJoinedGroups(s: string)
    ensures GroupDigits(s) == Join(Groups(s))
  {
    if |s| > 3 {
      var other := s[..|s| - 3];
      var cs := Reverse(ChunksFrom(other, |other|));
      ChunksSizes(other, |other|);
      var gs := cs + [s[|s| - 3..]];
      assert gs[..|gs| - 1] == cs;
    }
  }

  /**
   * The groups spell out `s`; the last has three characters, every earlier
   * one two, except the leftmost, which has one or two (a string of at most
   * three characters is one group).
   */
  lemma GroupsShape(s: string)
    ensures var gs := Groups(s);
      && Flatten(gs) == s
      && (|s| <= 3 ==> gs == [s])
      && (|s| > 3 ==>
            && |gs| >= 2
            && |gs[|gs| - 1]| == 3
            && 1 <= |gs[0]| <= 2
            && forall k :: 0 < k < |gs| - 1 ==> |gs[k]| == 2)
  {
    if |s| <= 3 {
      FlattenAppend([], s);
      assert [] + [s] == [s];
    } else {
      var other := s[..|s| - 3];
      var cs := Reverse(ChunksFrom(other, |other|));
      ChunksFlatten(other, |other|);
      ChunksSizes(other, |other|);
      FlattenAppend(cs, s[|s| - 3..]);
      assert other[..|other|] == other;
      assert other + s[|s| - 3..] == s;
      var gs := cs + [s[|s| - 3..]];
      forall k | 0 <= k < |cs|
        ensures gs[k] == cs[k]
      {
      }
    }
  }

  /** The groups of a digit string are made of digits. */
  lemma GroupsAreDigits(s: string)
    requires IsDigits(s)
    ensures forall j, k :: 0 <= j < |Groups(s)| && 0 <= k < |Groups(s)[j]| ==> '0' <= Groups(s)[j][k] <= '9'
  {
    var gs := Groups(s);
    GroupsShape(s);
    forall j, k | 0 <= j < |gs| && 0 <= k < |gs[j]|
      ensures '0' <= gs[j][k] <= '9'
    {
      FlattenMember(gs, j, k);
    }
  }

  /** The characters of a piece occur in the concatenation. */
  lemma {:induction false} FlattenMember(xs: seq<string>, j: int, k: int)
    requires 0 <= j < |xs| && 0 <= k < |xs[j]|
    ensures exists m :: 0 <= m < |Flatten(xs)| && Flatten(xs)[m] == xs[j][k]
  {
    var init := xs[..|xs| - 1];
    var f := Flatten(xs);
    assert f == Flatten(init) + xs[|xs| - 1];
    if j == |xs| - 1 {
      assert f[|Flatten(init)| + k] == xs[j][k];
    } else {
      FlattenMember(init, j, k);
      var m :| 0 <= m < |Flatten(init)| && Flatten(init)[m] == init[j][k];
      assert f[m] == xs[j][k];
    }
  }

  /** Deleting the commas gives back exactly the decimal digits of the amount. */
  lemma RemoveCommasGivesDigits(n: nat)
    ensures RemoveCommas(IndianFormat(n)) == NatToString(n)
  {
    var s := NatToString(n);
    FormatIsJoinedGroups(s);
    GroupsShape(s);
    GroupsAreDigits(s);
    RemoveCommasJoin(Groups(s));
  }

  /** The formatted amount never starts or ends with a comma and never has two in a row. */
  lemma FormatWellSeparated(n: nat)
    ensures WellSeparated(IndianFormat(n))
  {
    var s := NatToString(n);
    FormatIsJoinedGroups(s);
    GroupsShape(s);
    GroupsAreDigits(s);
    JoinWellSeparated(Groups(s));
  }

  /**
   * The groups of the amount: the last has three digits, every earlier one
   * two, except the leftmost, which has one or two.
   */
  lemma AmountGroups(n: nat)
    ensures IndianFormat(n) == Join(Groups(NatToString(n)))
    ensures Flatten(Groups(NatToString(n))) == NatToString(n)
    ensures var s, gs := NatToString(n), Groups(NatToString(n));
      |s| > 3 ==>
        && |gs| >= 2
        && |gs[|gs| - 1]| == 3
        && 1 <= |gs[0]| <= 2
        && forall k :: 0 < k < |gs| - 1 ==> |gs[k]| == 2
  {
    FormatIsJoinedGroups(NatToString(n));
    GroupsShape(NatToString(n));
  }

  lemma DigitsExample()
    ensures NatToString(1234567) == "1234567"
  {
    assert Digit(1) == '1' && Digit(2) == '2' && Digit(3) == '3' && Digit(4) == '4';
    assert Digit(5) == '5' && Digit(6) == '6' && Digit(7) == '7';
    assert NatToString(1) == "1";
    assert NatToString(12) == NatToString(1) + "2";
    assert NatToString(123) == NatToString(12) + "3";
    assert NatToString(1234) == NatToString(123) + "4";
    assert NatToString(12345) == NatToString(1234) + "5";
    assert NatToString(123456) == NatToString(12345) + "6";
    assert NatToString(1234567) == NatToString(123456) + "7";
  }

  /** 1234567 is written 12,34,567. */
  lemma FormatExample()
    ensures IndianFormat(1234567) == "12,34,567"
  {
    DigitsExample();
    GroupDigitsExample();
  }

  lemma GroupDigitsExample()
    ensures GroupDigits("1234567") == "12,34,567"
  {
    var s := "1234567";
    assert s[..|s| - 3] == "1234" && s[|s| - 3..] == "567";
    ChunksExample("1234");
  }

  lemma ChunksExample(other: string)
    requires other == "1234"
    ensures Join(Reverse(ChunksFrom(other, |other|))) == "12,34"
  {
    assert other[2..4] == "34";
    assert other[0..2] == "12";
    assert ChunksFrom(other, 0) == [];
    assert ChunksFrom(other, 2) == [other[0..2]] + ChunksFrom(other, 0);
    assert ChunksFrom(other, 4) == [other[2..4]] + ChunksFrom(other, 2);
    ReverseJoinExample();
  }

  lemma ReverseJoinExample()
    ensures Join(Reverse(["34", "12"])) == "12,34"
  {
    var cs := ["34", "12"];
    assert cs[1..] == ["12"] && cs[1..][1..] == [];
    assert Reverse(cs) == ["12", "34"];
    assert ["12", "34"][..1] == ["12"];
  }
}
