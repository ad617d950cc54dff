/** The engine conventions the repository's own tests pin, as literal bytes on the stack. */
module EngineVectors {
  import opened Arith
  import opened Bytes
  import opened Lists
  import opened Numbers
  import opened Machine

  /** One byte below the sign bit is its own number, and one behind a zero any byte. */
  lemma SmallNumbers(n: nat)
    requires 0 < n < 256
    ensures MinEnc(n) == if n < 128 then [n] else [n, 0]
    ensures AsNum(MinEnc(n)) == Some(n)
  {
    assert Magnitude(n) == [n % 256] + Magnitude(n / 256);
    assert Magnitude(n / 256) == [];
    DecodeMinEnc(n);
  }

  function On(s: List<Bytes>): VM<Bytes> { VM(s, Nil, Nil, Len(s)) }

  /** What one instruction leaves on the stack. */
  predicate Leaves(env: Env, op: Op, before: List<Bytes>, after: List<Bytes>)
  {
    Exec(env, op, On(before)).Some? && Exec(env, op, On(before)).value.stack == after
  }

  lemma SubstrOf(env: Env, from: nat, to: nat, x: Bytes, s: List<Bytes>)
    requires from <= to <= |x| && InRange(to)
    ensures Leaves(env, OpSubstr, Cons(MinEnc(to), Cons(MinEnc(from), Cons(x, s))), Cons(x[from..to], s))
  {
    AsNumMinEnc(from);
    AsNumMinEnc(to);
    hide MinEnc, AsNum;
  }

  /** `data start end`, half open. */
  lemma SubstrVectors(env: Env, s: List<Bytes>)
    ensures var data: Bytes := [0x00, 0x11, 0x22, 0x33, 0x44, 0x55];
            && Leaves(env, OpSubstr, Cons([4], Cons([2], Cons(data, s))), Cons([0x22, 0x33], s))
            && Leaves(env, OpSubstr, Cons([6], Cons([5], Cons(data, s))), Cons([0x55], s))
  {
    SmallNumbers(2);
    SmallNumbers(4);
    SmallNumbers(5);
    SmallNumbers(6);
    var data: Bytes := [0x00, 0x11, 0x22, 0x33, 0x44, 0x55];
    hide MinEnc, Leaves;
    SubstrOf(env, 2, 4, data, s);
    SubstrOf(env, 5, 6, data, s);
    assert data[2..4] == [0x22, 0x33] && data[5..6] == [0x55];
  }

  lemma ArithOf(env: Env, op: ArithOp, a: int, b: int, r: int, s: List<Bytes>)
    requires InRange(a) && InRange(b) && Arithmetic(op, a, b) == Some(r)
    ensures Leaves(env, OpArith(op), Cons(MinEnc(b), Cons(MinEnc(a), s)), Cons(MinEnc(r), s))
  {
    AsNumMinEnc(a);
    AsNumMinEnc(b);
    hide MinEnc, AsNum;
  }

  /** `a b` gives a / b, a % b and a - b. */
  lemma ArithVectors(env: Env, s: List<Bytes>)
    ensures Leaves(env, OpArith(Div), Cons([8], Cons([200, 0], s)), Cons([25], s))
    ensures Leaves(env, OpArith(Mod), Cons([8], Cons([203, 0], s)), Cons([3], s))
    ensures Leaves(env, OpArith(Sub), Cons([3], Cons([5], s)), Cons([2], s))
  {
    hide *;
    SmallNumbers(2);
    SmallNumbers(3);
    SmallNumbers(5);
    SmallNumbers(8);
    SmallNumbers(25);
    SmallNumbers(200);
    SmallNumbers(203);
    Quotients();
    ArithOf(env, Div, 200, 8, 25, s);
    ArithOf(env, Mod, 203, 8, 3, s);
    ArithOf(env, Sub, 5, 3, 2, s);
  }

  lemma Quotients()
    ensures Arithmetic(Div, 200, 8) == Some(25) && Arithmetic(Mod, 203, 8) == Some(3) && Arithmetic(Sub, 5, 3) == Some(2)
    ensures forall n: nat :: n < 256 ==> InRange(n)
  {
  }

  /** `a b` gives a >= b and a <= b. */
  lemma CompareVectors(env: Env, s: List<Bytes>)
    ensures Leaves(env, OpArith(GreaterThanOrEqual), Cons([2], Cons([3], s)), Cons([1], s))
    ensures Leaves(env, OpArith(GreaterThanOrEqual), Cons([2], Cons([2], s)), Cons([1], s))
    ensures Leaves(env, OpArith(GreaterThanOrEqual), Cons([2], Cons([1], s)), Cons([], s))
    ensures Leaves(env, OpArith(LessThanOrEqual), Cons([2], Cons([1], s)), Cons([1], s))
    ensures Leaves(env, OpArith(LessThanOrEqual), Cons([2], Cons([3], s)), Cons([], s))
  {
    assert MinEnc(0) == [];
    hide *;
    SmallNumbers(1);
    SmallNumbers(2);
    SmallNumbers(3);
    Quotients();
    Comparisons();
    ArithOf(env, GreaterThanOrEqual, 3, 2, 1, s);
    ArithOf(env, GreaterThanOrEqual, 2, 2, 1, s);
    ArithOf(env, GreaterThanOrEqual, 1, 2, 0, s);
    ArithOf(env, LessThanOrEqual, 1, 2, 1, s);
    ArithOf(env, LessThanOrEqual, 3, 2, 0, s);
  }

  lemma Comparisons()
    ensures Arithmetic(GreaterThanOrEqual, 3, 2) == Some(1) && Arithmetic(GreaterThanOrEqual, 2, 2) == Some(1)
    ensures Arithmetic(GreaterThanOrEqual, 1, 2) == Some(0) && Arithmetic(LessThanOrEqual, 1, 2) == Some(1)
    ensures Arithmetic(LessThanOrEqual, 3, 2) == Some(0)
  {
  }

  /** A lone 0x80 is negative zero; a zero byte above clears the sign. */
  lemma SignVectors(env: Env, s: List<Bytes>)
    ensures Leaves(env, OpBin2Num, Cons([0x7f], s), Cons([0x7f], s))
    ensures Leaves(env, OpBin2Num, Cons([0x80], s), Cons([], s))
    ensures Leaves(env, OpBin2Num, Cons([0x80, 0x00], s), Cons([0x80, 0x00], s))
    ensures Leaves(env, OpBin2Num, Cons([0xff, 0x00], s), Cons([0xff, 0x00], s))
  {
    SmallNumbers(0x7f);
    SmallNumbers(0x80);
    SmallNumbers(0xff);
    DecodeLoneByte(0x80);
    assert MinEnc(0) == [];
    hide MinEnc;
    ByteValues(0x7f, 0x80, 0xff);
  }

  lemma ByteValues(a: Byte, b: Byte, c: Byte)
    requires a < 128
    ensures Decode([a]) == a && Decode([b, 0]) == b && Decode([c, 0]) == c
  {
    var z, y, x: Bytes := [a], [b, 0], [c, 0];
    var rest: Bytes := [0];
    assert z[1..] == [] && y[1..] == rest && x[1..] == rest && rest[1..] == [];
    assert LeValue(rest) == 0 && LeValue(z) == a && LeValue(y) == b && LeValue(x) == c;
  }

  lemma WidthOf(env: Env, n: nat, w: nat, s: List<Bytes>)
    requires 1 <= w <= 8 && n < Pow2(8 * w - 1) && n < 0x8000_0000_0000_0000
    ensures Leaves(env, OpNum2Bin, Cons(MinEnc(w), Cons(MinEnc(n), s)), Cons(ToLe(n, w), s))
  {
    AsNumMinEnc(n);
    AsNumMinEnc(w);
    WidthBytes(n, w);
    hide MinEnc, AsNum, ToLe, Pow2, Num2BinBytes;
  }

  lemma WidthBytes(n: nat, w: nat)
    requires 1 <= w <= 8 && n < Pow2(8 * w - 1)
    ensures Num2BinBytes(n, w) == Some(ToLe(n, w)) && InRange(w)
  {
    hide ToLe, Pow2;
  }

  /** The fixed-width form is little-endian; a magnitude that reaches the sign bit aborts. */
  lemma WidthVectors(env: Env, s: List<Bytes>)
    ensures Leaves(env, OpNum2Bin, Cons([4], Cons([5], s)), Cons([5, 0, 0, 0], s))
    ensures Leaves(env, OpNum2Bin, Cons([2], Cons([0x34, 0x12], s)), Cons([0x34, 0x12], s))
    ensures Exec(env, OpNum2Bin, On(Cons([1], Cons([0x80, 0x00], s)))) == None
  {
    hide *;
    SmallNumbers(2);
    SmallNumbers(4);
    SmallNumbers(5);
    WordNumber();
    LittleForms();
    WidthOf(env, 5, 4, s);
    WidthOf(env, 0x1234, 2, s);
    TooWide(env, s);
  }

  lemma TooWide(env: Env, s: List<Bytes>)
    ensures Exec(env, OpNum2Bin, On(Cons([1], Cons([0x80, 0x00], s)))) == None
  {
    SmallNumbers(1);
    SmallNumbers(0x80);
    SignReached();
    hide MinEnc, AsNum, Num2BinBytes;
  }

  lemma SignReached()
    ensures Num2BinBytes(0x80, 1) == None
  {
    LittleForms();
    hide ToLe, Pow2;
  }

  lemma WordNumber()
    ensures MinEnc(0x1234) == [0x34, 0x12] && AsNum([0x34, 0x12]) == Some(0x1234)
  {
    assert Magnitude(0x12) == [0x12] + Magnitude(0);
    assert Magnitude(0x1234) == [0x34] + Magnitude(0x12);
    DecodeMinEnc(0x1234);
  }

  lemma LittleForms()
    ensures ToLe(5, 4) == [5, 0, 0, 0] && ToLe(0x1234, 2) == [0x34, 0x12]
    ensures 5 < Pow2(31) && 0x1234 < Pow2(15) && Pow2(7) == 128
  {
    Pow2Table();
    assert ToLe(0, 1) == [0] && ToLe(0, 2) == [0, 0] && ToLe(0, 3) == [0, 0, 0];
    assert ToLe(0x12, 1) == [0x12];
  }
}
