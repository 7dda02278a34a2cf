/** The length field of EN 50221 (annex A): short form up to 127, else the number of length bytes with
    the size indicator, and the length, most significant byte first. */
module CiLength {
  import opened Common

  const SIZE_INDICATOR := 0x80

  function LengthField(n: int): (s: seq<Byte>)
    requires 0 <= n < 0x8000_0000
    ensures 1 <= |s| <= 5
  {
    if n < 0x80 then [n]
    else if n < 0x100 then [0x81, n]
    else if n < 0x1_0000 then [0x82, n / 0x100, n % 0x100]
    else if n < 0x100_0000 then [0x83, n / 0x1_0000, n / 0x100 % 0x100, n % 0x100]
    else [0x84, n / 0x100_0000, n / 0x1_0000 % 0x100, n / 0x100 % 0x100, n % 0x100]
  }

  /** An int of 32 bits. */
  function Wrap(n: int): int {
    var m := n % 0x1_0000_0000;
    if m >= 0x8000_0000 then m - 0x1_0000_0000 else m
  }

  function Value(bytes: seq<Byte>): int {
    if bytes == [] then 0 else Wrap(Value(bytes[..|bytes| - 1]) * 0x100 + bytes[|bytes| - 1])
  }

  /** The number of bytes of a length field that starts with b. */
  function FieldSize(b: Byte): nat {
    if b < SIZE_INDICATOR then 1 else 1 + (b - SIZE_INDICATOR)
  }

  predicate HasField(s: seq<Byte>) {
    |s| >= 1 && |s| >= FieldSize(s[0])
  }

  /** The length and the size of the field at the start of s. */
  function Parsed(s: seq<Byte>): (int, nat)
    requires HasField(s)
  {
    if s[0] < SIZE_INDICATOR then (s[0], 1) else (Value(s[1..FieldSize(s[0])]), FieldSize(s[0]))
  }

  lemma ValueStep(bytes: seq<Byte>, b: Byte)
    ensures Value(bytes + [b]) == Wrap(Value(bytes) * 0x100 + b)
  {
    assert (bytes + [b])[..|bytes|] == bytes;
  }

  lemma ValueNone()
    ensures Value([]) == 0
  {
  }

  lemma WrapSmall(n: int)
    requires 0 <= n < 0x8000_0000
    ensures Wrap(n) == n
  {
  }

  lemma ValueAppend(bytes: seq<Byte>, b: Byte)
    requires 0 <= Value(bytes) < 0x80_0000
    ensures Value(bytes + [b]) == Value(bytes) * 0x100 + b
  {
    ValueStep(bytes, b);
    WrapSmall(Value(bytes) * 0x100 + b);
  }

  lemma ValueOne(a: Byte)
    ensures Value([a]) == a
  {
    ValueAppend([], a);
    assert [] + [a] == [a];
  }

  lemma ValueTwo(a: Byte, b: Byte)
    ensures Value([a, b]) == a * 0x100 + b
  {
    hide Value;
    ValueOne(a);
    ValueAppend([a], b);
    assert [a] + [b] == [a, b];
  }

  lemma ValueThree(a: Byte, b: Byte, c: Byte)
    ensures Value([a, b, c]) == (a * 0x100 + b) * 0x100 + c
  {
    hide Value;
    ValueTwo(a, b);
    ValueAppend([a, b], c);
    assert [a, b] + [c] == [a, b, c];
  }

  lemma ValueFour(a: Byte, b: Byte, c: Byte, d: Byte)
    requires a < 0x80
    ensures Value([a, b, c, d]) == ((a * 0x100 + b) * 0x100 + c) * 0x100 + d
  {
    hide Value;
    ValueThree(a, b, c);
    ValueAppend([a, b, c], d);
    assert [a, b, c] + [d] == [a, b, c, d];
  }

  /** The bytes of n, most significant first, give n. */
  lemma FieldValue(n: int)
    requires 0x80 <= n < 0x8000_0000
    ensures var f := LengthField(n); FieldSize(f[0]) == |f| && Value(f[1..]) == n
  {
    if n < 0x1_0000 {
      ShortValue(n);
    } else {
      LongValue(n);
    }
  }

  lemma ShortValue(n: int)
    requires 0x80 <= n < 0x1_0000
    ensures var f := LengthField(n); FieldSize(f[0]) == |f| && Value(f[1..]) == n
  {
    hide Value, Wrap;
    var f := LengthField(n);
    if n < 0x100 {
      ValueOne(n);
      assert f[1..] == [n];
    } else {
      ValueTwo(n / 0x100, n % 0x100);
      assert f[1..] == [n / 0x100, n % 0x100];
    }
  }

  lemma LongValue(n: int)
    requires 0x1_0000 <= n < 0x8000_0000
    ensures var f := LengthField(n); FieldSize(f[0]) == |f| && Value(f[1..]) == n
  {
    hide Value, Wrap;
    var f := LengthField(n);
    if n < 0x100_0000 {
      ValueThree(n / 0x1_0000, n / 0x100 % 0x100, n % 0x100);
      assert f[1..] == [n / 0x1_0000, n / 0x100 % 0x100, n % 0x100];
    } else {
      ValueFour(n / 0x100_0000, n / 0x1_0000 % 0x100, n / 0x100 % 0x100, n % 0x100);
      assert f[1..] == [n / 0x100_0000, n / 0x1_0000 % 0x100, n / 0x100 % 0x100, n % 0x100];
    }
  }

  /** GetLength undoes SetLength, whatever follows. */
  lemma LengthRoundTrip(n: int, rest: seq<Byte>)
    requires 0 <= n < 0x8000_0000
    ensures HasField(LengthField(n) + rest) && Parsed(LengthField(n) + rest) == (n, |LengthField(n)|)
  {
    hide Value, Wrap;
    var f := LengthField(n);
    var s := f + rest;
    assert s[0] == f[0];
    if n >= 0x80 {
      FieldValue(n);
      assert s[1..|f|] == f[1..];
    }
  }

  lemma FieldIs(n: int)
    requires 0 <= n < 0x8000_0000
    ensures n < 0x80 ==> LengthField(n) == [n]
    ensures 0x80 <= n < 0x100 ==> LengthField(n) == [0x81, n]
    ensures 0x100 <= n < 0x1_0000 ==> n / 0x100 < 0x100 && LengthField(n) == [0x82, n / 0x100, n % 0x100]
    ensures 0x1_0000 <= n < 0x100_0000 ==> n / 0x1_0000 < 0x100 && LengthField(n) == [0x83, n / 0x1_0000, n / 0x100 % 0x100, n % 0x100]
    ensures 0x100_0000 <= n ==> n / 0x100_0000 < 0x100 && LengthField(n) == [0x84, n / 0x100_0000, n / 0x1_0000 % 0x100, n / 0x100 % 0x100, n % 0x100]
  {
  }

  /** SetLength */
  method SetLength(data: array<Byte>, at: nat, length: int) returns (p: nat)
    requires 0 <= length < 0x8000_0000 && at + |LengthField(length)| <= data.Length
    modifies data
    ensures p == at + |LengthField(length)|
    ensures data[at..p] == LengthField(length)
    ensures forall i :: 0 <= i < at || p <= i < data.Length ==> data[i] == old(data[i])
  {
    hide LengthField;
    FieldIs(length);
    if length < 128 {
      data[at] := length;
      p := at + 1;
    } else if length < 256 {
      data[at], data[at + 1] := SIZE_INDICATOR + 0x1, length;
      p := at + 2;
    } else if length < 65536 {
      data[at], data[at + 1], data[at + 2] := SIZE_INDICATOR + 0x2, length / 0x100, length % 0x100;
      p := at + 3;
    } else if length < 16777216 {
      data[at], data[at + 1] := SIZE_INDICATOR + 0x3, length / 0x1_0000;
      data[at + 2], data[at + 3] := length / 0x100 % 0x100, length % 0x100;
      p := at + 4;
    } else {
      data[at], data[at + 1], data[at + 2] := SIZE_INDICATOR + 0x4, length / 0x100_0000, length / 0x1_0000 % 0x100;
      data[at + 3], data[at + 4] := length / 0x100 % 0x100, length % 0x100;
      p := at + 5;
    }
  }

  /** GetLength */
  method GetLength(data: seq<Byte>, at: nat) returns (length: int, p: nat)
    requires at <= |data| && HasField(data[at..])
    ensures (length, p - at) == Parsed(data[at..]) && at < p <= |data|
  {
    hide Wrap, Value;
    ValueNone();
    length := data[at];
    p := at + 1;
    if length >= SIZE_INDICATOR {
      var l := length - SIZE_INDICATOR;
      length := 0;
      var i := 0;
      ghost var field := data[at..][1..];
      while i < l
        invariant 0 <= i <= l && p == at + 1 + i
        invariant length == Value(field[..i])
      {
        assert field[..i + 1] == field[..i] + [data[p]];
        ValueStep(field[..i], data[p]);
        length := Wrap(length * 0x100 + data[p]);
        p := p + 1;
        i := i + 1;
      }
      assert data[at..][1..FieldSize(data[at])] == field[..l];
    }
  }
}
