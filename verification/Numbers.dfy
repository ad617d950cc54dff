/**
 * Script numbers: little-endian sign-magnitude byte strings.
 *
 * The engine itself is a library; what is modelled is what the emitters rely on: minimal pushes, `OpNum2Bin`
 * at a fixed width, `OpBin2Num` with a lone 0x80 reading as zero, and 64-bit signed arithmetic.
 */
module Numbers {
  import opened Arith
  import opened Bytes
  import opened Lists

  function Abs(n: int): nat { if n < 0 then -n else n }

  /** Minimal little-endian magnitude. */
  function Magnitude(n: nat): Bytes
  {
    if n == 0 then [] else [n % 256] + Magnitude(n / 256)
  }

  function LeValue(b: Bytes): nat
  {
    if |b| == 0 then 0 else b[0] + 256 * LeValue(b[1..])
  }

  /** The minimal encoding a numeric push uses. */
  function MinEnc(n: int): Bytes
  {
    var m := Magnitude(Abs(n));
    if |m| == 0 then []
    else
      var top := m[|m| - 1];
      if top >= 128 then m + [if n < 0 then 128 else 0]
      else if n < 0 then m[|m| - 1 := top + 128]
      else m
  }

  /** Sign-magnitude value of any byte string; 0x80 reads as zero. */
  function Decode(b: Bytes): int
  {
    if |b| == 0 then 0
    else
      var top := b[|b| - 1];
      if top >= 128 then 0 - LeValue(b[|b| - 1 := top - 128]) else LeValue(b)
  }

  const NumLimit: int := 0x8000_0000_0000_0000

  predicate InRange(n: int) { -NumLimit < n < NumLimit }

  /** An arithmetic operand: minimally encoded and within 64 bits. */
  function AsNum(b: Bytes): Option<int>
  {
    var n := Decode(b);
    if MinEnc(n) == b && InRange(n) then Some(n) else None
  }

  /** `OpNum2Bin`: sign-magnitude in exactly w bytes, refused when the magnitude needs the sign bit. */
  function Num2BinBytes(n: int, w: int): Option<Bytes>
  {
    if !(1 <= w <= 8) || Abs(n) >= Pow2(8 * w - 1) then None
    else
      var le := ToLe(Abs(n), w);
      var top: int := le[w - 1];
      Some(if n < 0 then le[w - 1 := (top + 128) % 256] else le)
  }

  datatype ArithOp = Add | Sub | Mul | Div | Mod | LessThanOrEqual | GreaterThanOrEqual

  /** Division truncates toward zero. */
  function TruncDiv(a: int, b: int): int
    requires b != 0
  {
    if (a < 0) == (b < 0) then Abs(a) / Abs(b) else -(Abs(a) / Abs(b))
  }

  function BoolNum(b: bool): int { if b then 1 else 0 }

  /** `a op b` for two stack operands, b on top; None is an abort. */
  function Arithmetic(op: ArithOp, a: int, b: int): Option<int>
  {
    if op in {Div, Mod} && b == 0 then None
    else
      var r := match op
        case Add => a + b
        case Sub => a - b
        case Mul => a * b
        case Div => TruncDiv(a, b)
        case Mod => a - TruncDiv(a, b) * b
        case LessThanOrEqual => BoolNum(a <= b)
        case GreaterThanOrEqual => BoolNum(a >= b);
      if InRange(r) then Some(r) else None
  }

  lemma {:induction false} LeValueAppend(b: Bytes, v: Byte)
    ensures LeValue(b + [v]) == LeValue(b) + Pow2(8 * |b|) * v
  {
    if |b| == 0 {
      assert b + [v] == [v] && LeValue([v][1..]) == 0;
    } else {
      assert (b + [v])[1..] == b[1..] + [v];
      LeValueAppend(b[1..], v);
      Pow2Eight();
      Pow2Add(8, 8 * |b[1..]|);
      MulAssoc(256, Pow2(8 * |b[1..]|), v);
    }
  }

  lemma {:induction false} MagnitudeValue(n: nat)
    ensures LeValue(Magnitude(n)) == n
  {
    if n > 0 {
      MagnitudeValue(n / 256);
      assert Magnitude(n)[1..] == Magnitude(n / 256);
    }
  }

  /** Every number survives its own encoding. */
  lemma DecodeMinEnc(n: int)
    ensures Decode(MinEnc(n)) == n
  {
    var m := Magnitude(Abs(n));
    MagnitudeValue(Abs(n));
    if |m| > 0 {
      var top, body := m[|m| - 1], m[..|m| - 1];
      assert m == body + [top];
      if top >= 128 {
        LeValueAppend(m, 0);
        var e := MinEnc(n);
        if n < 0 {
          assert e[|e| - 1 := 0] == m + [0];
        } else {
          assert e == m + [0];
        }
      } else if n < 0 {
        var e := MinEnc(n);
        assert e[|e| - 1 := top] == m;
      }
    }
  }

  lemma AsNumMinEnc(n: int)
    requires InRange(n)
    ensures AsNum(MinEnc(n)) == Some(n)
  {
    DecodeMinEnc(n);
  }

  /** The sign-bit pad: any single byte followed by 0x00 decodes to its value. */
  lemma DecodePadded(v: Byte)
    ensures Decode([v] + [0]) == v
  {
    assert [v] + [0] == [v, 0];
    assert [v, 0][1..] == [0] && [0][1..] == [];
    assert LeValue([0]) == 0;
  }

  /** The trap the pad avoids: a lone byte decodes to its value exactly when it is below 0x80. */
  lemma DecodeLoneByte(v: Byte)
    ensures Decode([v]) == v <==> v < 128
    ensures Decode([128]) == 0
  {
    assert forall u: Byte {:trigger LeValue([u])} :: LeValue([u]) == u by {
      forall u: Byte
        ensures LeValue([u]) == u
      {
        assert [u][1..] == [];
      }
    }
    if v >= 128 {
      var low: Byte := v - 128;
      assert [v][0 := low] == [low];
      assert LeValue([low]) == low;
    }
    var zero: Byte := 0;
    assert [128][0 := zero] == [zero];
    assert LeValue([zero]) == 0;
  }

  lemma ArithmeticInRange(op: ArithOp, a: int, b: int)
    ensures Arithmetic(op, a, b).Some? ==> InRange(Arithmetic(op, a, b).value)
  {
  }

  lemma ArithmeticNat(op: ArithOp, a: nat, b: nat)
    requires op in {Add, Mul, Div, Mod}
    requires if op in {Add, Mul} then InRange(if op == Add then a + b else a * b) else b > 0 && InRange(a)
    ensures Arithmetic(op, a, b) == Some(match op case Add => a + b case Mul => a * b case Div => a / b case _ => a % b)
  {
    if op in {Div, Mod} {
      DivBounds(a, b);
    }
  }
}
