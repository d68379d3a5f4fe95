/** Decimal text: UTF-8 lengths, digits, signed integers, and field splitting, as Go's string functions treat them. */
module Text {
  import opened Common

  /** Bytes that one character takes in UTF-8. */
  function Width(c: char): nat {
    if c < '\U{80}' then 1 else if c < '\U{800}' then 2 else if c < '\U{10000}' then 3 else 4
  }

  /** `len` of a string. */
  function Bytes(s: string): nat {
    if s == "" then 0 else Width(s[0]) + Bytes(s[1..])
  }

  predicate Digit(c: char) {
    '0' <= c <= '9'
  }

  predicate AllDigits(s: string) {
    forall i :: 0 <= i < |s| ==> Digit(s[i])
  }

  lemma {:induction false} BytesOfDigits(s: string)
    requires forall i :: 0 <= i < |s| ==> s[i] < '\U{80}'
    ensures Bytes(s) == |s|
  {
    if s != "" {
      BytesOfDigits(s[1..]);
    }
  }

  /** Every character takes at least one byte. */
  lemma {:induction false} BytesCoverCharacters(s: string)
    ensures |s| <= Bytes(s)
  {
    if s != "" {
      BytesCoverCharacters(s[1..]);
    }
  }

  /** The number that a string of digits denotes. */
  function Number(s: string): nat
    requires AllDigits(s)
  {
    if s == "" then 0 else 10 * Number(s[..|s| - 1]) + (s[|s| - 1] as int - '0' as int)
  }

  function Pow10(n: nat): nat {
    if n == 0 then 1 else 10 * Pow10(n - 1)
  }

  lemma {:induction false} NumberIsBounded(s: string)
    requires AllDigits(s)
    ensures Number(s) < Pow10(|s|)
  {
    if s != "" {
      NumberIsBounded(s[..|s| - 1]);
    }
  }

  const INT64_MIN := -0x8000_0000_0000_0000
  const INT64_MAX := 0x7fff_ffff_ffff_ffff

  predicate InInt64(x: int) {
    INT64_MIN <= x <= INT64_MAX
  }

  /** The value that 64-bit two's complement arithmetic keeps. */
  function Wrap64(x: int): int {
    (x - INT64_MIN) % 0x1_0000_0000_0000_0000 + INT64_MIN
  }

  lemma InRangeIsNotWrapped(x: int)
    requires InInt64(x)
    ensures Wrap64(x) == x
  {
  }

  /** Base-10 `ParseInt` of 64 bits: an optional sign, then digits. */
  function ParseInt(s: string): Option<int> {
    var negative := s != "" && s[0] == '-';
    var digits := if s != "" && s[0] in {'+', '-'} then s[1..] else s;
    if digits == "" || !AllDigits(digits) then None
    else
      var value: int := if negative then 0 - Number(digits) else Number(digits);
      if InInt64(value) then Some(value) else None
  }

  /** `strings.Split` at one character. */
  function Split(s: string, at: char): (parts: seq<string>)
    ensures |parts| >= 1
  {
    if s == "" then [""]
    else
      var others := Split(s[1..], at);
      if s[0] == at then [""] + others else [[s[0]] + others[0]] + others[1..]
  }

  lemma {:induction false} SplitWithout(s: string, at: char)
    requires at !in s
    ensures Split(s, at) == [s]
  {
    if s != "" {
      SplitWithout(s[1..], at);
      assert [s[0]] + s[1..] == s;
    }
  }

  lemma {:induction false} SplitOnce(before: string, at: char, after: string)
    requires at !in before && at !in after
    ensures Split(before + [at] + after, at) == [before, after]
  {
    var s := before + [at] + after;
    if before == "" {
      SplitWithout(after, at);
      assert s[1..] == after;
    } else {
      SplitOnce(before[1..], at, after);
      assert s[1..] == before[1..] + [at] + after;
      assert [s[0]] + before[1..] == before;
    }
  }

  /** The text without any of these characters. */
  function Without(s: string, dropped: set<char>): (t: string)
    ensures forall i :: 0 <= i < |t| ==> t[i] !in dropped && t[i] in s
  {
    if s == "" then ""
    else if s[0] in dropped then Without(s[1..], dropped)
    else [s[0]] + Without(s[1..], dropped)
  }

  lemma WithoutHead(c: char, s: string, dropped: set<char>)
    ensures Without([c] + s, dropped) == (if c in dropped then "" else [c]) + Without(s, dropped)
  {
    assert ([c] + s)[1..] == s;
  }

  lemma {:induction false} WithoutJoins(s: string, t: string, dropped: set<char>)
    ensures Without(s + t, dropped) == Without(s, dropped) + Without(t, dropped)
  {
    if s == "" {
      assert s + t == t;
    } else {
      var c, rest := s[0], s[1..];
      assert s == [c] + rest && s + t == [c] + (rest + t);
      WithoutJoins(rest, t, dropped);
      WithoutHead(c, rest + t, dropped);
      WithoutHead(c, rest, dropped);
    }
  }

  lemma {:induction false} WithoutKeeps(s: string, dropped: set<char>)
    requires forall i :: 0 <= i < |s| ==> s[i] !in dropped
    ensures Without(s, dropped) == s
  {
    if s != "" {
      WithoutKeeps(s[1..], dropped);
    }
  }

  /** Go's white space. */
  predicate Space(c: char) {
    || '\U{9}' <= c <= '\U{D}' || c == ' ' || c == '\U{85}' || c == '\U{A0}' || c == '\U{1680}'
    || '\U{2000}' <= c <= '\U{200A}' || '\U{2028}' <= c <= '\U{2029}' || c == '\U{202F}' || c == '\U{205F}' || c == '\U{3000}'
  }

  function TrimLeft(s: string): (t: string)
    ensures t == "" || !Space(t[0])
    ensures |t| <= |s| && t == s[|s| - |t|..]
  {
    if s != "" && Space(s[0]) then TrimLeft(s[1..]) else s
  }

  function TrimRight(s: string): (t: string)
    ensures t == "" || !Space(t[|t| - 1])
    ensures t <= s
  {
    if s != "" && Space(s[|s| - 1]) then TrimRight(s[..|s| - 1]) else s
  }

  /** `strings.TrimSpace`. */
  function TrimSpace(s: string): (t: string)
    ensures Trimmed(t)
    ensures Trimmed(s) ==> t == s
    ensures |t| <= |s|
  {
    TrimRight(TrimLeft(s))
  }

  predicate Trimmed(s: string) {
    s == "" || (!Space(s[0]) && !Space(s[|s| - 1]))
  }

  predicate Blank(s: string) {
    forall i :: 0 <= i < |s| ==> Space(s[i])
  }

  lemma {:induction false} LeftTrimsToNothing(s: string)
    ensures TrimLeft(s) == "" <==> Blank(s)
  {
    if s != "" && Space(s[0]) {
      LeftTrimsToNothing(s[1..]);
      assert Blank(s[1..]) ==> Blank(s) by {
        assert forall i :: 1 <= i < |s| ==> s[i] == s[1..][i - 1];
      }
    }
  }

  /** Trimming leaves nothing of a blank text, and something of any other. */
  lemma TrimsToNothing(s: string)
    ensures TrimSpace(s) == "" <==> Blank(s)
  {
    LeftTrimsToNothing(s);
    var t := TrimLeft(s);
    if t != "" {
      StaysNonempty(t);
    }
  }

  lemma {:induction false} StaysNonempty(s: string)
    requires s != "" && !Space(s[0])
    ensures TrimRight(s) != ""
  {
    if Space(s[|s| - 1]) {
      StaysNonempty(s[..|s| - 1]);
    }
  }
}
