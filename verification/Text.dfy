/** The string operations behind asset ids: ASCII case, trimming and hex encoding. */
module Text {

  newtype byte = n: int | 0 <= n < 256

  function LowerChar(c: char): char
  {
    if 'A' <= c <= 'Z' then (c as int + 32) as char else c
  }

  function UpperChar(c: char): char
  {
    if 'a' <= c <= 'z' then (c as int - 32) as char else c
  }

  function Lower(s: string): (r: string)
    ensures |r| == |s|
    ensures forall i :: 0 <= i < |s| ==> r[i] as int == s[i] as int + if 'A' <= s[i] <= 'Z' then 32 else 0
  {
    seq(|s|, i requires 0 <= i < |s| => LowerChar(s[i]))
  }

  function Upper(s: string): (r: string)
    ensures |r| == |s|
    ensures forall i :: 0 <= i < |s| ==> r[i] as int == s[i] as int - if 'a' <= s[i] <= 'z' then 32 else 0
  {
    seq(|s|, i requires 0 <= i < |s| => UpperChar(s[i]))
  }

  /** Case-insensitive comparison. */
  predicate EqualFold(a: string, b: string)
  {
    Lower(a) == Lower(b)
  }

  /** `x` is the text `y` with some of its lower-case letters in upper case. */
  ghost predicate Spells(x: string, y: string)
  {
    |x| == |y| && forall i :: 0 <= i < |y| ==>
      x[i] == y[i] || ('a' <= y[i] <= 'z' && x[i] as int == y[i] as int - 32)
  }

  /** Lowering gives a lower-case text for its spellings and for no other text. */
  lemma {:induction false} LowerIffSpells(x: string, y: string)
    requires Lower(y) == y
    ensures Lower(x) == y <==> Spells(x, y)
  {
    if Lower(x) == y {
      forall i | 0 <= i < |y|
        ensures x[i] == y[i] || ('a' <= y[i] <= 'z' && x[i] as int == y[i] as int - 32)
      {
        assert y[i] as int == x[i] as int + if 'A' <= x[i] <= 'Z' then 32 else 0;
      }
    }
    if Spells(x, y) {
      forall i | 0 <= i < |y| ensures Lower(x)[i] == y[i] {
        assert Lower(y)[i] == y[i];
      }
    }
  }

  predicate IsSpace(c: char)
  {
    var n := c as int;
    || n == 0x20 || 0x09 <= n <= 0x0D || n == 0x85 || n == 0xA0 || n == 0x1680 || 0x2000 <= n <= 0x200A
    || n == 0x2028 || n == 0x2029 || n == 0x202F || n == 0x205F || n == 0x3000
  }

  /** The characters that Unicode counts as white space. */
  const WHITE_SPACE: string :=
    "\U{0009}\U{000A}\U{000B}\U{000C}\U{000D}\U{0020}\U{0085}\U{00A0}\U{1680}" +
    "\U{2000}\U{2001}\U{2002}\U{2003}\U{2004}\U{2005}\U{2006}\U{2007}\U{2008}\U{2009}\U{200A}" +
    "\U{2028}\U{2029}\U{202F}\U{205F}\U{3000}"

  lemma {:induction false} SpacesListed(c: char)
    ensures IsSpace(c) <==> c in WHITE_SPACE
  {
    if IsSpace(c) {
      var n := c as int;
      if 0x2000 <= n <= 0x200A {
        assert WHITE_SPACE[n - 0x2000 + 9] == c;
      } else if n <= 0x0D {
        assert WHITE_SPACE[n - 9] == c;
      } else {
        var k := if n == 0x20 then 5 else if n == 0x85 then 6 else if n == 0xA0 then 7 else if n == 0x1680 then 8
                 else if n == 0x2028 then 20 else if n == 0x2029 then 21 else if n == 0x202F then 22
                 else if n == 0x205F then 23 else 24;
        assert WHITE_SPACE[k] == c;
      }
    }
  }

  function TrimLeft(s: string): string
  {
    if s == [] || !IsSpace(s[0]) then s else TrimLeft(s[1..])
  }

  function TrimRight(s: string): string
  {
    if s == [] || !IsSpace(s[|s| - 1]) then s else TrimRight(s[..|s| - 1])
  }

  function Trim(s: string): string
  {
    TrimRight(TrimLeft(s))
  }

  /** The part of `s` from `i` to `j` has only white space around it and none at its ends. */
  ghost predicate Core(s: string, i: nat, j: nat)
  {
    && i <= j <= |s|
    && (forall k :: 0 <= k < i ==> IsSpace(s[k])) && (forall k :: j <= k < |s| ==> IsSpace(s[k]))
    && (i < j ==> !IsSpace(s[i]) && !IsSpace(s[j - 1]))
  }

  lemma {:induction false} TrimLeftCore(s: string) returns (i: nat)
    ensures i <= |s| && TrimLeft(s) == s[i..]
    ensures (forall k :: 0 <= k < i ==> IsSpace(s[k])) && (i < |s| ==> !IsSpace(s[i]))
  {
    if s == [] || !IsSpace(s[0]) {
      i := 0;
    } else {
      var rest := TrimLeftCore(s[1..]);
      assert forall k :: 1 <= k < |s| ==> s[k] == s[1..][k - 1];
      i := rest + 1;
    }
  }

  lemma {:induction false} TrimRightCore(s: string) returns (j: nat)
    ensures j <= |s| && TrimRight(s) == s[..j]
    ensures (forall k :: j <= k < |s| ==> IsSpace(s[k])) && (j > 0 ==> !IsSpace(s[j - 1]))
  {
    if s == [] || !IsSpace(s[|s| - 1]) {
      j := |s|;
    } else {
      j := TrimRightCore(s[..|s| - 1]);
    }
  }

  /** Trimming takes away the white space at both ends, all of it and nothing else. */
  lemma {:induction false} TrimIsCore(s: string) returns (i: nat, j: nat)
    ensures Core(s, i, j) && Trim(s) == s[i..j]
  {
    i := TrimLeftCore(s);
    var n := TrimRightCore(s[i..]);
    j := i + n;
    assert s[i..][..n] == s[i..j];
    assert forall k :: i <= k < |s| ==> s[k] == s[i..][k - i];
  }

  /** The trimmed text is the only nonempty part of that kind. */
  lemma {:induction false} CoreIsTrim(s: string, i: nat, j: nat)
    requires Core(s, i, j) && i < j
    ensures Trim(s) == s[i..j]
  {
    var a, b := TrimIsCore(s);
    assert a <= i && j <= b;
  }

  function HexDigit(n: int): (c: char)
    requires 0 <= n < 16
    ensures '0' <= c <= '9' || 'a' <= c <= 'f'
  {
    if n < 10 then ('0' as int + n) as char else ('a' as int + n - 10) as char
  }

  function Hex(bs: seq<byte>): (s: string)
    ensures |s| == 2 * |bs|
    ensures forall i :: 0 <= i < |s| ==> '0' <= s[i] <= '9' || 'a' <= s[i] <= 'f'
  {
    if bs == [] then [] else
    [HexDigit(bs[0] as int / 16), HexDigit(bs[0] as int % 16)] + Hex(bs[1..])
  }

  /** The value of a hexadecimal digit. */
  function DigitValue(c: char): int
  {
    if '0' <= c <= '9' then c as int - '0' as int else if 'a' <= c <= 'f' then c as int - 'a' as int + 10 else -1
  }

  /** Each byte is given by two digits, the higher first. */
  lemma {:induction false} HexDigits(bs: seq<byte>, k: nat)
    requires k < |bs|
    ensures 16 * DigitValue(Hex(bs)[2 * k]) + DigitValue(Hex(bs)[2 * k + 1]) == bs[k] as int
  {
    if k == 0 {
      assert Hex(bs)[0] == HexDigit(bs[0] as int / 16) && Hex(bs)[1] == HexDigit(bs[0] as int % 16);
    } else {
      var rest := Hex(bs[1..]);
      assert Hex(bs)[2 * k] == rest[2 * (k - 1)] && Hex(bs)[2 * k + 1] == rest[2 * (k - 1) + 1];
      HexDigits(bs[1..], k - 1);
    }
  }

  /** Different byte strings have different encodings. */
  lemma {:induction false} HexInjective(a: seq<byte>, b: seq<byte>)
    requires Hex(a) == Hex(b)
    ensures a == b
  {
    assert |a| == |b|;
    forall k | 0 <= k < |a| ensures a[k] == b[k] {
      HexDigits(a, k);
      HexDigits(b, k);
    }
  }

  /** Lower case text without white space is left alone by trimming and lowering. */
  lemma {:induction false} PlainStays(s: string)
    requires forall i :: 0 <= i < |s| ==> Plain(s[i])
    ensures Trim(s) == s && Lower(s) == s
  {
    if s != [] {
      assert Plain(s[0]) && Plain(s[|s| - 1]);
      assert TrimLeft(s) == s && TrimRight(s) == s;
    }
    forall i | 0 <= i < |s| ensures LowerChar(s[i]) == s[i] {
      assert Plain(s[i]);
    }
  }

  predicate Plain(c: char)
  {
    '0' <= c <= '9' || 'a' <= c <= 'z'
  }
}
