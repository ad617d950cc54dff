/** The emitter's compile-time stack: names of the run-time stack entries, resolved to depths at generation time. */
module Frames {
  import opened Lists

  /** The slot names the emitter uses. */
  datatype Slot =
    | Transient
    | D | R | Digest | Tree | Leaf
    | Hcf | Racc | Idx | Lx | Sk | Node | Auth | Pfx
    | Ltree | Lleaf | Hcb | Kp4 | Hcw | Hcp | Hct
    | Csum | Acc | Hcwi | X | Wpk

  /** Depth of the most recently pushed entry of that name. */
  function Depth(f: List<Slot>, name: Slot): (r: Option<nat>)
    ensures r.Some? ==> r.value < Len(f) && Nth(f, r.value) == name
    ensures r.Some? ==> forall d: nat :: d < r.value ==> Nth(f, d) != name
    ensures r.None? ==> forall d: nat :: d < Len(f) ==> Nth(f, d) != name
  {
    match f
    case Nil => None
    case Cons(h, t) =>
      if h == name then Some(0)
      else
        match Depth(t, name)
        case Some(d) => Some(d + 1)
        case None => None
  }

  function Drop<T>(f: List<T>, n: nat): Option<List<T>>
  {
    if n == 0 then Some(f) else if f.Nil? then None else Drop(f.tail, n - 1)
  }

  /** Pop n entries and push one. */
  function Replace(f: List<Slot>, n: nat, name: Slot): Option<List<Slot>>
  {
    match Drop(f, n)
    case Some(t) => Some(Cons(name, t))
    case None => None
  }

  function SwapTop(f: List<Slot>): Option<List<Slot>>
  {
    match f
    case Cons(b, Cons(a, t)) => Some(Cons(a, Cons(b, t)))
    case _ => None
  }

  function RollTop(f: List<Slot>, depth: nat): Option<List<Slot>>
  {
    if depth < Len(f) then Some(Cons(Nth(f, depth), Without(f, depth))) else None
  }

  function NipTop(f: List<Slot>): Option<List<Slot>>
  {
    match f
    case Cons(b, Cons(a, t)) => Some(Cons(b, t))
    case _ => None
  }

  // ---- the vector of names, bottom first -----------------------------------

  /** The first |names| entries, named from the last. */
  predicate OnTop(stack: List<Slot>, names: seq<Slot>)
  {
    |names| <= Len(stack) && forall d: nat :: d < |names| ==> Nth(stack, d) == names[|names| - 1 - d]
  }

  /** The top-first view of a bottom-first vector. */
  function View(slots: seq<Slot>): (l: List<Slot>)
    ensures Len(l) == |slots|
  {
    if |slots| == 0 then Nil else Cons(slots[|slots| - 1], View(slots[..|slots| - 1]))
  }

  lemma {:induction false} ViewNth(slots: seq<Slot>, d: nat)
    requires d < |slots|
    ensures Nth(View(slots), d) == slots[|slots| - 1 - d]
  {
    if d > 0 {
      ViewNth(slots[..|slots| - 1], d - 1);
    }
  }

  lemma ViewPush(slots: seq<Slot>, x: Slot)
    ensures View(slots + [x]) == Cons(x, View(slots))
  {
    assert (slots + [x])[..|slots|] == slots;
  }

  lemma {:induction false} ViewRemove(slots: seq<Slot>, d: nat)
    requires d < |slots|
    ensures View(slots[..|slots| - 1 - d] + slots[|slots| - d..]) == Without(View(slots), d)
  {
    var n := |slots|;
    if d == 0 {
      assert slots[..n - 1] + slots[n..] == slots[..n - 1];
    } else {
      var s' := slots[..n - 1];
      ViewRemove(s', d - 1);
      ViewPush(s'[..n - 1 - d] + s'[n - d..], slots[n - 1]);
      assert slots[..n - 1 - d] + slots[n - d..] == s'[..n - 1 - d] + s'[n - d..] + [slots[n - 1]];
    }
  }

  /** Every method is true on success; a false result is a generation error, after which the frame is not used. */
  class Frame {
    var slots: seq<Slot>

    constructor ()
      ensures slots == []
    {
      slots := [];
    }

    /** `rposition` over the vector. */
    method FindDepth(name: Slot) returns (r: Option<nat>)
      ensures r == Depth(View(slots), name)
    {
      var pos := |slots|;
      while pos > 0
        invariant 0 <= pos <= |slots|
        invariant forall j :: pos <= j < |slots| ==> slots[j] != name
      {
        pos := pos - 1;
        if slots[pos] == name {
          ViewNth(slots, |slots| - 1 - pos);
          DepthIs(slots, name, pos);
          return Some(|slots| - 1 - pos);
        }
      }
      if Depth(View(slots), name).Some? {
        ViewNth(slots, Depth(View(slots), name).value);
      }
      return None;
    }

    method Push(name: Slot)
      modifies this
      ensures slots == old(slots) + [name] && View(slots) == Cons(name, View(old(slots)))
    {
      slots := slots + [name];
      ViewPush(old(slots), name);
    }

    method Pop() returns (ok: bool)
      modifies this
      ensures ok == View(old(slots)).Cons?
      ensures View(slots) == if ok then View(old(slots)).tail else View(old(slots))
    {
      ok := |slots| > 0;
      if ok {
        slots := slots[..|slots| - 1];
      }
    }

    method ReplaceTop(n: nat, name: Slot) returns (ok: bool)
      modifies this
      ensures ok == Replace(View(old(slots)), n, name).Some?
      ensures ok ==> View(slots) == Replace(View(old(slots)), n, name).value
    {
      var i := 0;
      while i < n
        invariant 0 <= i <= n
        invariant Drop(View(old(slots)), n) == Drop(View(slots), n - i)
      {
        ok := Pop();
        if !ok {
          return;
        }
        i := i + 1;
      }
      ok := true;
      Push(name);
    }

    method RenameTop(name: Slot) returns (ok: bool)
      modifies this
      ensures ok == Replace(View(old(slots)), 1, name).Some?
      ensures ok ==> View(slots) == Replace(View(old(slots)), 1, name).value
    {
      ok := ReplaceTop(1, name);
    }

    method Swap() returns (ok: bool)
      modifies this
      ensures ok == SwapTop(View(old(slots))).Some?
      ensures ok ==> View(slots) == SwapTop(View(old(slots))).value
    {
      var n := |slots|;
      ok := n >= 2;
      if ok {
        ghost var was := slots;
        slots := slots[n - 1 := slots[n - 2]][n - 2 := slots[n - 1]];
        assert slots[..n - 1][..n - 2] == was[..n - 1][..n - 2];
      }
    }

    method Roll(depth: nat) returns (ok: bool)
      modifies this
      ensures ok == RollTop(View(old(slots)), depth).Some?
      ensures ok ==> View(slots) == RollTop(View(old(slots)), depth).value
    {
      var n := |slots|;
      ok := depth < n;
      if ok {
        ViewNth(slots, depth);
        ViewRemove(slots, depth);
        var item := slots[n - 1 - depth];
        slots := slots[..n - 1 - depth] + slots[n - depth..];
        Push(item);
      }
    }

    method Nip() returns (ok: bool)
      modifies this
      ensures ok == NipTop(View(old(slots))).Some?
      ensures ok ==> View(slots) == NipTop(View(old(slots))).value
    {
      var n := |slots|;
      ok := n >= 2;
      if ok {
        ghost var was := slots;
        ViewRemove(slots, 1);
        slots := slots[..n - 2] + slots[n - 1..];
        assert View(was).tail.Cons?;
      }
    }

    /** Whether the top of the stack holds exactly these names, the last of them on top. */
    method ExpectTop(expected: seq<Slot>) returns (ok: bool)
      ensures ok <==> OnTop(View(slots), expected)
    {
      var n, m := |slots|, |expected|;
      ok := m <= n && slots[n - m..] == expected;
      if m <= n {
        forall d: nat | d < m
          ensures Nth(View(slots), d) == slots[n - m..][m - 1 - d]
        {
          ViewNth(slots, d);
        }
        if OnTop(View(slots), expected) {
          TopUnique(View(slots), slots[n - m..], expected);
        }
      }
    }
  }

  lemma TopUnique(stack: List<Slot>, a: seq<Slot>, b: seq<Slot>)
    requires OnTop(stack, a) && OnTop(stack, b) && |a| == |b|
    ensures a == b
  {
    forall i | 0 <= i < |a|
      ensures a[i] == b[i]
    {
      var d: nat := |a| - 1 - i;
      assert Nth(stack, d) == a[|a| - 1 - d];
      assert Nth(stack, d) == b[|b| - 1 - d];
    }
  }

  lemma DepthIs(slots: seq<Slot>, name: Slot, pos: nat)
    requires pos < |slots| && slots[pos] == name
    requires forall j :: pos < j < |slots| ==> slots[j] != name
    ensures Depth(View(slots), name) == Some(|slots| - 1 - pos)
  {
    var want := |slots| - 1 - pos;
    ViewNth(slots, want);
    var got := Depth(View(slots), name);
    if got.Some? {
      ViewNth(slots, got.value);
      assert got.value >= want;
    }
  }
}
