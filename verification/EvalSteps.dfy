/**
 * The meaning of emitter calls as rewrite rules on explicit stacks. A proof about a phase brings the rules into scope
 * and hides the definitions, so that a symbolic run of the phase is plain rewriting.
 */
module EvalSteps {
  import opened Arith
  import opened Bytes
  import opened Lists
  import opened Numbers
  import opened Machine
  import opened Frames
  import opened Emission

  /** A value without a name of its own. */
  function Tr(v: Val): (i: Item)
    ensures i.val == v && i.name == Transient
  {
    Item(Transient, v)
  }

  lemma E1(h: Hash, sig: seq<Bytes>, a: Macro, st: St)
    ensures Eval(h, sig, [a], st) == Do(h, sig, a, st)
  {
    hide Do;
    assert [a][1..] == [];
  }

  lemma E2(h: Hash, sig: seq<Bytes>, a: Macro, b: Macro, st: St)
    ensures Eval(h, sig, [a, b], st) == Do(h, sig, b, Do(h, sig, a, st))
  {
    hide Do;
    assert [a, b][1..] == [b];
    E1(h, sig, b, Do(h, sig, a, st));
  }

  lemma E3(h: Hash, sig: seq<Bytes>, a: Macro, b: Macro, c: Macro, st: St)
    ensures Eval(h, sig, [a, b, c], st) == Do(h, sig, c, Do(h, sig, b, Do(h, sig, a, st)))
  {
    hide Do;
    assert [a, b, c][1..] == [b, c];
    E2(h, sig, b, c, Do(h, sig, a, st));
  }

  lemma E4(h: Hash, sig: seq<Bytes>, a: Macro, b: Macro, c: Macro, d: Macro, st: St)
    ensures Eval(h, sig, [a, b, c, d], st) == Do(h, sig, d, Do(h, sig, c, Do(h, sig, b, Do(h, sig, a, st))))
  {
    hide Do;
    assert [a, b, c, d][1..] == [b, c, d];
    E3(h, sig, b, c, d, Do(h, sig, a, st));
  }

  /** Sequencing: concatenations and short displays. */
  lemma SequenceRules(h: Hash, sig: seq<Bytes>)
    ensures forall a, b, st {:trigger Eval(h, sig, a + b, st)} ::
              Eval(h, sig, a + b, st) == Eval(h, sig, b, Eval(h, sig, a, st))
    ensures forall st {:trigger Eval(h, sig, [], st)} :: Eval(h, sig, [], st) == st
    ensures forall a, st {:trigger Eval(h, sig, [a], st)} :: Eval(h, sig, [a], st) == Do(h, sig, a, st)
    ensures forall a, b, st {:trigger Eval(h, sig, [a, b], st)} ::
              Eval(h, sig, [a, b], st) == Do(h, sig, b, Do(h, sig, a, st))
    ensures forall a, b, c, st {:trigger Eval(h, sig, [a, b, c], st)} ::
              Eval(h, sig, [a, b, c], st) == Do(h, sig, c, Do(h, sig, b, Do(h, sig, a, st)))
    ensures forall a, b, c, d, st {:trigger Eval(h, sig, [a, b, c, d], st)} ::
              Eval(h, sig, [a, b, c, d], st) == Do(h, sig, d, Do(h, sig, c, Do(h, sig, b, Do(h, sig, a, st))))
  {
    hide Do, Eval;
    forall a, b, st
      ensures Eval(h, sig, a + b, st) == Eval(h, sig, b, Eval(h, sig, a, st))
    {
      EvalAppend(h, sig, a, b, st);
    }
    forall st
      ensures Eval(h, sig, [], st) == st
    {
      EvalNone(h, sig, st);
    }
    forall a, st
      ensures Eval(h, sig, [a], st) == Do(h, sig, a, st)
    {
      E1(h, sig, a, st);
    }
    forall a, b, st
      ensures Eval(h, sig, [a, b], st) == Do(h, sig, b, Do(h, sig, a, st))
    {
      E2(h, sig, a, b, st);
    }
    forall a, b, c, st
      ensures Eval(h, sig, [a, b, c], st) == Do(h, sig, c, Do(h, sig, b, Do(h, sig, a, st)))
    {
      E3(h, sig, a, b, c, st);
    }
    forall a, b, c, d, st
      ensures Eval(h, sig, [a, b, c, d], st) == Do(h, sig, d, Do(h, sig, c, Do(h, sig, b, Do(h, sig, a, st))))
    {
      E4(h, sig, a, b, c, d, st);
    }
  }

  /** Longer displays split after their fourth call. */
  lemma DisplayRules(h: Hash, sig: seq<Bytes>)
    ensures forall a, b, c, d, e, st {:trigger Eval(h, sig, [a, b, c, d, e], st)} ::
              Eval(h, sig, [a, b, c, d, e], st) == Eval(h, sig, [e], Eval(h, sig, [a, b, c, d], st))
    ensures forall a, b, c, d, e, f, st {:trigger Eval(h, sig, [a, b, c, d, e, f], st)} ::
              Eval(h, sig, [a, b, c, d, e, f], st) == Eval(h, sig, [e, f], Eval(h, sig, [a, b, c, d], st))
    ensures forall a, b, c, d, e, f, g, st {:trigger Eval(h, sig, [a, b, c, d, e, f, g], st)} ::
              Eval(h, sig, [a, b, c, d, e, f, g], st) == Eval(h, sig, [e, f, g], Eval(h, sig, [a, b, c, d], st))
    ensures forall a, b, c, d, e, f, g, i, st {:trigger Eval(h, sig, [a, b, c, d, e, f, g, i], st)} ::
              Eval(h, sig, [a, b, c, d, e, f, g, i], st) == Eval(h, sig, [e, f, g, i], Eval(h, sig, [a, b, c, d], st))
  {
    hide Do, Eval;
    forall a, b, c, d, e, st
      ensures Eval(h, sig, [a, b, c, d, e], st) == Eval(h, sig, [e], Eval(h, sig, [a, b, c, d], st))
    {
      SplitDisplay(h, sig, [a, b, c, d, e], [a, b, c, d], [e], st);
    }
    forall a, b, c, d, e, f, st
      ensures Eval(h, sig, [a, b, c, d, e, f], st) == Eval(h, sig, [e, f], Eval(h, sig, [a, b, c, d], st))
    {
      SplitDisplay(h, sig, [a, b, c, d, e, f], [a, b, c, d], [e, f], st);
    }
    forall a, b, c, d, e, f, g, st
      ensures Eval(h, sig, [a, b, c, d, e, f, g], st) == Eval(h, sig, [e, f, g], Eval(h, sig, [a, b, c, d], st))
    {
      SplitDisplay(h, sig, [a, b, c, d, e, f, g], [a, b, c, d], [e, f, g], st);
    }
    forall a, b, c, d, e, f, g, i, st
      ensures Eval(h, sig, [a, b, c, d, e, f, g, i], st) == Eval(h, sig, [e, f, g, i], Eval(h, sig, [a, b, c, d], st))
    {
      SplitDisplay(h, sig, [a, b, c, d, e, f, g, i], [a, b, c, d], [e, f, g, i], st);
    }
  }

  lemma SplitDisplay(h: Hash, sig: seq<Bytes>, whole: seq<Macro>, a: seq<Macro>, b: seq<Macro>, st: St)
    requires whole == a + b
    ensures Eval(h, sig, whole, st) == Eval(h, sig, b, Eval(h, sig, a, st))
  {
    EvalAppend(h, sig, a, b, st);
  }

  /** Five parts in sequence. */
  lemma Chain5(h: Hash, sig: seq<Bytes>, a: seq<Macro>, b: seq<Macro>, c: seq<Macro>, d: seq<Macro>, e: seq<Macro>, st: St)
    ensures Eval(h, sig, a + b + c + d + e, st)
            == Eval(h, sig, e, Eval(h, sig, d, Eval(h, sig, c, Eval(h, sig, b, Eval(h, sig, a, st)))))
  {
    hide *;
    EvalAppend(h, sig, a, b, st);
    EvalAppend(h, sig, a + b, c, st);
    EvalAppend(h, sig, a + b + c, d, st);
    EvalAppend(h, sig, a + b + c + d, e, st);
  }

  lemma EvalNone(h: Hash, sig: seq<Bytes>, st: St)
    ensures Eval(h, sig, [], st) == st
  {
  }

  /** Naming: lookups and removals walk down an explicit stack. */
  lemma NamingRules(h: Hash, sig: seq<Bytes>)
    ensures forall a: Item, t: NS, s {:trigger Find(Cons(a, t), s)} ::
              Find(Cons(a, t), s) == if a.name == s then Some(a.val) else Find(t, s)
    ensures forall a: Item, t: NS, s {:trigger Remove(Cons(a, t), s)} ::
              Remove(Cons(a, t), s) == if a.name == s then t else Cons(a, Remove(t, s))
    ensures forall s, l, el {:trigger Do(h, sig, Pick(s), St(l, el))} ::
              Find(l, s).Some? ==> Do(h, sig, Pick(s), St(l, el)) == St(Cons(Tr(Find(l, s).value), l), el)
    ensures forall s, l, el {:trigger Do(h, sig, Roll(s), St(l, el))} ::
              Find(l, s).Some? ==>
                Do(h, sig, Roll(s), St(l, el)) == St(Cons(Item(s, Find(l, s).value), Remove(l, s)), el)
    ensures forall s, a: Item, t: NS, el {:trigger Do(h, sig, NameTop(s), St(Cons(a, t), el))} ::
              Do(h, sig, NameTop(s), St(Cons(a, t), el)) == St(Cons(Item(s, a.val), t), el)
  {
  }

  /** Moving values about. */
  lemma ShuffleRules(h: Hash, sig: seq<Bytes>)
    ensures forall b, l, el {:trigger Do(h, sig, Data(b), St(l, el))} ::
              Do(h, sig, Data(b), St(l, el)) == St(Cons(Tr(Blob(b)), l), el)
    ensures forall n, l, el {:trigger Do(h, sig, Number(n), St(l, el))} ::
              Do(h, sig, Number(n), St(l, el)) == St(Cons(Tr(Num(n)), l), el)
    ensures forall a: Item, b: Item, t: NS, el {:trigger Do(h, sig, Swap, St(Cons(b, Cons(a, t)), el))} ::
              Do(h, sig, Swap, St(Cons(b, Cons(a, t)), el)) == St(Cons(a, Cons(b, t)), el)
    ensures forall a: Item, t: NS, el {:trigger Do(h, sig, Dup, St(Cons(a, t), el))} ::
              Do(h, sig, Dup, St(Cons(a, t), el)) == St(Cons(Tr(a.val), Cons(a, t)), el)
    ensures forall a: Item, b: Item, t: NS, el {:trigger Do(h, sig, Over, St(Cons(b, Cons(a, t)), el))} ::
              Do(h, sig, Over, St(Cons(b, Cons(a, t)), el)) == St(Cons(Tr(a.val), Cons(b, Cons(a, t))), el)
    ensures forall a: Item, t: NS, el {:trigger Do(h, sig, DropTop, St(Cons(a, t), el))} ::
              Do(h, sig, DropTop, St(Cons(a, t), el)) == St(t, el)
    ensures forall a: Item, b: Item, t: NS, el {:trigger Do(h, sig, Nip, St(Cons(b, Cons(a, t)), el))} ::
              Do(h, sig, Nip, St(Cons(b, Cons(a, t)), el)) == St(Cons(b, t), el)
    ensures forall a: Item, b: Item, c: Item, t: NS, el
              {:trigger Do(h, sig, RollDepth(2), St(Cons(c, Cons(b, Cons(a, t))), el))} ::
              Do(h, sig, RollDepth(2), St(Cons(c, Cons(b, Cons(a, t))), el)) == St(Cons(a, Cons(c, Cons(b, t))), el)
    ensures forall s, l, el: nat {:trigger Do(h, sig, Fetch(s), St(l, el))} ::
              el < |sig| ==>
                Do(h, sig, Fetch(s), St(l, el)) == St(Cons(Item(s, Blob(Elem(sig, el))), l), el + 1)
  {
    forall a: Item, b: Item, c: Item, t: NS, el
      ensures Do(h, sig, RollDepth(2), St(Cons(c, Cons(b, Cons(a, t))), el)) == St(Cons(a, Cons(c, Cons(b, t))), el)
    {
      NthThree(c, b, a, t);
    }
  }

  lemma NthThree<T>(a: T, b: T, c: T, t: List<T>)
    ensures var l := Cons(a, Cons(b, Cons(c, t)));
            Len(l) >= 3 && Nth(l, 2) == c && Without(l, 2) == Cons(a, Cons(b, t))
  {
    var l := Cons(a, Cons(b, Cons(c, t)));
    assert Nth(l.tail, 1) == c && Without(l.tail, 1) == Cons(b, t);
  }

  /** Byte strings. */
  lemma BytesRules(h: Hash, sig: seq<Bytes>)
    ensures forall s1, s2, a, b, t, el
              {:trigger Do(h, sig, Cat, St(Cons(Item(s2, Blob(b)), Cons(Item(s1, Blob(a)), t)), el))} ::
              Do(h, sig, Cat, St(Cons(Item(s2, Blob(b)), Cons(Item(s1, Blob(a)), t)), el))
              == St(Cons(Tr(Blob(a + b)), t), el)
    ensures forall s1, a, t, el {:trigger Do(h, sig, Sha256, St(Cons(Item(s1, Blob(a)), t), el))} ::
              Do(h, sig, Sha256, St(Cons(Item(s1, Blob(a)), t), el)) == St(Cons(Tr(Blob(h(a))), t), el)
    ensures forall s1, a, from: nat, to: nat, t, el
              {:trigger Do(h, sig, Substr(from, to), St(Cons(Item(s1, Blob(a)), t), el))} ::
              from <= to <= |a| && to < NumLimit ==>
                Do(h, sig, Substr(from, to), St(Cons(Item(s1, Blob(a)), t), el))
                == St(Cons(Tr(Blob(a[from..to])), t), el)
    ensures forall s1, s2, a, b, t, el
              {:trigger Do(h, sig, Equal, St(Cons(Item(s2, Blob(b)), Cons(Item(s1, Blob(a)), t)), el))} ::
              Do(h, sig, Equal, St(Cons(Item(s2, Blob(b)), Cons(Item(s1, Blob(a)), t)), el))
              == St(Cons(Tr(Num(BoolNum(a == b))), t), el)
    ensures forall s1, v: Byte, t, el {:trigger Do(h, sig, Bin2Num, St(Cons(Item(s1, Blob([v] + [0])), t), el))} ::
              Do(h, sig, Bin2Num, St(Cons(Item(s1, Blob([v] + [0])), t), el)) == St(Cons(Tr(Num(v)), t), el)
    ensures forall s1, n: nat, w: nat, t, el {:trigger Do(h, sig, Num2Bin(w), St(Cons(Item(s1, Num(n)), t), el))} ::
              1 <= w <= 8 && n < Pow2(8 * w - 1) ==>
                Do(h, sig, Num2Bin(w), St(Cons(Item(s1, Num(n)), t), el)) == St(Cons(Tr(Blob(ToLe(n, w))), t), el)
  {
    forall s1, v: Byte, t, el
      ensures Do(h, sig, Bin2Num, St(Cons(Item(s1, Blob([v] + [0])), t), el)) == St(Cons(Tr(Num(v)), t), el)
    {
      DecodePadded(v);
    }
    forall s1, n: nat, w: nat, t, el | 1 <= w <= 8 && n < Pow2(8 * w - 1)
      ensures Do(h, sig, Num2Bin(w), St(Cons(Item(s1, Num(n)), t), el)) == St(Cons(Tr(Blob(ToLe(n, w))), t), el)
    {
      Fits64(n, w);
    }
  }

  lemma Fits64(n: nat, w: nat)
    requires 1 <= w <= 8 && n < Pow2(8 * w - 1)
    ensures InRange(n) && Num2BinBytes(n, w) == Some(ToLe(n, w))
  {
    Pow2Mono(8 * w - 1, 63);
    Limit63();
  }

  lemma Limit63()
    ensures Pow2(63) == NumLimit
  {
    Pow2Table();
    Pow2Add(31, 31);
    Pow2Add(62, 1);
  }

  /** Arithmetic on operands within the engine's range. */
  lemma ArithRules(h: Hash, sig: seq<Bytes>)
    ensures forall s1, s2, a: nat, b: nat, t, el
              {:trigger Do(h, sig, BinaryNum(Add), St(Cons(Item(s2, Num(b)), Cons(Item(s1, Num(a)), t)), el))} ::
              a + b < NumLimit ==>
                Do(h, sig, BinaryNum(Add), St(Cons(Item(s2, Num(b)), Cons(Item(s1, Num(a)), t)), el))
                == St(Cons(Tr(Num(a + b)), t), el)
    ensures forall s1, s2, a: nat, b: nat, t, el
              {:trigger Do(h, sig, BinaryNum(Sub), St(Cons(Item(s2, Num(b)), Cons(Item(s1, Num(a)), t)), el))} ::
              b <= a < NumLimit ==>
                Do(h, sig, BinaryNum(Sub), St(Cons(Item(s2, Num(b)), Cons(Item(s1, Num(a)), t)), el))
                == St(Cons(Tr(Num(a - b)), t), el)
    ensures forall s1, s2, a: nat, b: nat, t, el
              {:trigger Do(h, sig, BinaryNum(LessThanOrEqual),
                           St(Cons(Item(s2, Num(b)), Cons(Item(s1, Num(a)), t)), el))} ::
              a < NumLimit && b < NumLimit ==>
                Do(h, sig, BinaryNum(LessThanOrEqual), St(Cons(Item(s2, Num(b)), Cons(Item(s1, Num(a)), t)), el))
                == St(Cons(Tr(Num(BoolNum(a <= b))), t), el)
    ensures forall s1, s2, a: nat, b: nat, t, el
              {:trigger Do(h, sig, BinaryNum(Mod), St(Cons(Item(s2, Num(b)), Cons(Item(s1, Num(a)), t)), el))} ::
              a < NumLimit && 0 < b < NumLimit ==>
                Do(h, sig, BinaryNum(Mod), St(Cons(Item(s2, Num(b)), Cons(Item(s1, Num(a)), t)), el))
                == St(Cons(Tr(Num(a % b)), t), el)
    ensures forall s1, s2, a: nat, b: nat, t, el
              {:trigger Do(h, sig, BinaryNum(Div), St(Cons(Item(s2, Num(b)), Cons(Item(s1, Num(a)), t)), el))} ::
              a < NumLimit && 0 < b < NumLimit ==>
                Do(h, sig, BinaryNum(Div), St(Cons(Item(s2, Num(b)), Cons(Item(s1, Num(a)), t)), el))
                == St(Cons(Tr(Num(a / b)), t), el)
    ensures forall s1, s2, a: nat, b: nat, t, el
              {:trigger Do(h, sig, BinaryNum(Mul), St(Cons(Item(s2, Num(b)), Cons(Item(s1, Num(a)), t)), el))} ::
              a < NumLimit && b < NumLimit && a * b < NumLimit ==>
                Do(h, sig, BinaryNum(Mul), St(Cons(Item(s2, Num(b)), Cons(Item(s1, Num(a)), t)), el))
                == St(Cons(Tr(Num(a * b)), t), el)
  {
    hide Arithmetic;
    forall a: nat, b: nat | a + b < NumLimit
      ensures Arithmetic(Add, a, b) == Some(a + b)
    {
      ArithmeticNat(Add, a, b);
    }
    forall a: nat, b: nat | b <= a < NumLimit
      ensures Arithmetic(Sub, a, b) == Some(a - b)
    {
      ArithmeticSmall(a, b);
    }
    forall a: nat, b: nat | a < NumLimit && b < NumLimit
      ensures Arithmetic(LessThanOrEqual, a, b) == Some(BoolNum(a <= b))
    {
      ArithmeticSmall(a, b);
    }
    forall a: nat, b: nat | a < NumLimit && 0 < b
      ensures Arithmetic(Mod, a, b) == Some(a % b) && Arithmetic(Div, a, b) == Some(a / b)
    {
      ArithmeticNat(Mod, a, b);
      ArithmeticNat(Div, a, b);
    }
    forall a: nat, b: nat | a * b < NumLimit
      ensures Arithmetic(Mul, a, b) == Some(a * b)
    {
      ArithmeticNat(Mul, a, b);
    }
  }

  lemma ArithmeticSmall(a: nat, b: nat)
    requires a < NumLimit && b < NumLimit
    ensures b <= a ==> Arithmetic(Sub, a, b) == Some(a - b)
    ensures Arithmetic(LessThanOrEqual, a, b) == Some(BoolNum(a <= b))
    ensures Arithmetic(GreaterThanOrEqual, a, b) == Some(BoolNum(a >= b))
  {
  }
}
