/** The packet view's node list: decimal numbers, each followed by a colon, and back. */
module NodeVector {
  const LIMIT: nat := 0x1_0000_0000

  type UInt32 = n: nat | n < LIMIT

  function Digit(d: nat): (c: char)
    requires d < 10
    ensures '0' <= c <= '9' && c as int - '0' as int == d
  {
    '0' + d as char
  }

  predicate IsDigits(s: string) {
    forall i :: 0 <= i < |s| ==> '0' <= s[i] <= '9'
  }

  /** QString::number: the decimal form without leading zeros. */
  function Number(n: nat): (s: string)
    ensures s != [] && IsDigits(s)
  {
    if n < 10 then [Digit(n)] else Number(n / 10) + [Digit(n % 10)]
  }

  function ValueOf(s: string): nat
    requires IsDigits(s)
  {
    if s == [] then 0 else 10 * ValueOf(s[..|s| - 1]) + (s[|s| - 1] as int - '0' as int)
  }

  /** QString::toUInt: a decimal number that fits in 32 bits is read as such. `other` is whatever the
      library makes of any other text: signs, spaces, letters, numbers that are too large. */
  function ToUInt(s: string, other: string -> UInt32): (n: nat)
    ensures n < LIMIT
  {
    if s != [] && IsDigits(s) && ValueOf(s) < LIMIT then ValueOf(s) else other(s)
  }

  function Close(piece: string): seq<string> {
    if piece == [] then [] else [piece]
  }

  /** The pieces between separators, empty ones skipped. `piece` has been read but not closed. */
  function Split(s: string, piece: string): seq<string> {
    if s == [] then Close(piece)
    else if s[0] == ':' then Close(piece) + Split(s[1..], [])
    else Split(s[1..], piece + [s[0]])
  }

  function Printed(v: seq<nat>): string {
    if v == [] then [] else Printed(v[..|v| - 1]) + Number(v[|v| - 1]) + ":"
  }

  function Parsed(pieces: seq<string>, other: string -> UInt32): (v: seq<nat>)
    ensures |v| == |pieces|
  {
    if pieces == [] then [] else Parsed(pieces[..|pieces| - 1], other) + [ToUInt(pieces[|pieces| - 1], other)]
  }

  predicate IsUInt32(v: seq<nat>) {
    forall i :: 0 <= i < |v| ==> v[i] < LIMIT
  }

  method NodeVectorToString(v: seq<nat>) returns (s: string)
    ensures s == Printed(v)
  {
    s := "";
    for i := 0 to |v|
      invariant s == Printed(v[..i])
    {
      assert v[..i + 1][..i] == v[..i];
      s := s + Number(v[i]) + ":";
    }
    assert v[..|v|] == v;
  }

  method StringToNodeVector(s: string, other: string -> UInt32) returns (v: seq<nat>)
    ensures v == Parsed(Split(s, []), other)
  {
    var nodes := Split(s, []);
    v := [];
    for i := 0 to |nodes|
      invariant v == Parsed(nodes[..i], other)
    {
      assert nodes[..i + 1][..i] == nodes[..i];
      v := v + [ToUInt(nodes[i], other)];
    }
    assert nodes[..|nodes|] == nodes;
  }

  lemma {:induction false} NumberRoundTrip(n: nat)
    ensures ValueOf(Number(n)) == n
  {
    if n >= 10 {
      NumberRoundTrip(n / 10);
      var s := Number(n);
      assert s[..|s| - 1] == Number(n / 10);
    } else {
      assert [Digit(n)][..0] == [];
    }
  }

  /** No leading zeros. */
  lemma {:induction false} NoLeadingZero(n: nat)
    ensures Number(n)[0] == '0' <==> n == 0
    ensures n == 0 ==> |Number(n)| == 1
  {
    if n >= 10 {
      NoLeadingZero(n / 10);
    }
  }

  /** Leading zeros are read, though never printed. */
  lemma {:induction false} ZerosInFront(s: string)
    requires IsDigits(s)
    ensures IsDigits("0" + s) && ValueOf("0" + s) == ValueOf(s)
  {
    if s == [] {
      assert "0"[..0] == "";
    } else {
      ZerosInFront(s[..|s| - 1]);
      assert ("0" + s)[..|"0" + s| - 1] == "0" + s[..|s| - 1];
    }
  }

  /** Text without a separator is one piece, or none if it is empty. */
  lemma {:induction false} SplitLast(a: string, piece: string)
    requires forall i :: 0 <= i < |a| ==> a[i] != ':'
    ensures Split(a, piece) == Close(piece + a)
    decreases |a|
  {
    if a == [] {
      assert piece + a == piece;
    } else {
      assert piece + [a[0]] + a[1..] == piece + a;
      SplitLast(a[1..], piece + [a[0]]);
    }
  }

  /** A separator splits any text into the pieces on its two sides; with SplitLast that says what
      splitting is. */
  lemma {:induction false} SplitAtColon(a: string, b: string, piece: string)
    ensures Split(a + [':'] + b, piece) == Split(a, piece) + Split(b, [])
    decreases |a|
  {
    var s := a + [':'] + b;
    if a == [] {
      assert s[1..] == b;
    } else {
      assert s[0] == a[0] && s[1..] == a[1..] + [':'] + b;
      if a[0] == ':' {
        SplitAtColon(a[1..], b, []);
      } else {
        SplitAtColon(a[1..], b, piece + [a[0]]);
      }
    }
  }

  function Numbers(v: seq<nat>): seq<string> {
    if v == [] then [] else [Number(v[0])] + Numbers(v[1..])
  }

  lemma {:induction false} PrintedFront(n: nat, v: seq<nat>)
    ensures Printed([n] + v) == Number(n) + ":" + Printed(v)
  {
    if v == [] {
      assert [n] + v == [] + [n];
      assert [] + Number(n) + ":" == Number(n) + ":" + [];
    } else {
      var init, last := v[..|v| - 1], v[|v| - 1];
      assert v == init + [last] && [n] + v == ([n] + init) + [last];
      PrintedFront(n, init);
    }
  }

  lemma {:induction false} SplitPrinted(v: seq<nat>)
    ensures Split(Printed(v), []) == Numbers(v)
  {
    if v == [] {
    } else {
      assert v == [v[0]] + v[1..];
      PrintedFront(v[0], v[1..]);
      SplitAtColon(Number(v[0]), Printed(v[1..]), []);
      SplitLast(Number(v[0]), []);
      assert [] + Number(v[0]) == Number(v[0]);
      SplitPrinted(v[1..]);
    }
  }

  lemma {:induction false} ParsedFront(p: string, ps: seq<string>, other: string -> UInt32)
    ensures Parsed([p] + ps, other) == [ToUInt(p, other)] + Parsed(ps, other)
  {
    if ps == [] {
      assert [p] + ps == [p];
      assert [p][..0] == [];
    } else {
      ParsedFront(p, ps[..|ps| - 1], other);
      assert ([p] + ps)[..|[p] + ps| - 1] == [p] + ps[..|ps| - 1];
    }
  }

  lemma {:induction false} ParsedNumbers(v: seq<nat>, other: string -> UInt32)
    requires IsUInt32(v)
    ensures Parsed(Numbers(v), other) == v
  {
    if v == [] {
    } else {
      ParsedNumbers(v[1..], other);
      ParsedFront(Number(v[0]), Numbers(v[1..]), other);
      NumberRoundTrip(v[0]);
    }
  }

  /** Parsing the printed form gives the vector back, the empty one included. */
  lemma RoundTrip(v: seq<nat>, other: string -> UInt32)
    requires IsUInt32(v)
    ensures Parsed(Split(Printed(v), []), other) == v
  {
    SplitPrinted(v);
    ParsedNumbers(v, other);
  }

  /** A last number without its colon is read all the same. */
  lemma UnterminatedIsRead(v: seq<nat>, n: nat, other: string -> UInt32)
    requires IsUInt32(v + [n])
    ensures Parsed(Split(Printed(v) + Number(n), []), other) == v + [n]
  {
    var text := Printed(v) + Number(n);
    SplitPrinted(v + [n]);
    SplitAtColon(text, [], []);
    assert text + [':'] + [] == Printed(v + [n]);
    assert Split(text, []) + [] == Split(text, []);
    ParsedNumbers(v + [n], other);
  }

  lemma {:induction false} ParsedFits(ps: seq<string>, other: string -> UInt32)
    ensures IsUInt32(Parsed(ps, other))
  {
    if ps == [] {
    } else {
      ParsedFits(ps[..|ps| - 1], other);
    }
  }

  /** What a parse yields always prints and parses to itself, whatever was parsed. */
  lemma ParseIsStable(s: string, other: string -> UInt32)
    ensures Parsed(Split(Printed(Parsed(Split(s, []), other)), []), other) == Parsed(Split(s, []), other)
  {
    ParsedFits(Split(s, []), other);
    RoundTrip(Parsed(Split(s, []), other), other);
  }
}
