/** Option, and the top-first lists used for stacks. */
module Lists {

  datatype Option<+T> = None | Some(value: T)

  /** A stack: the head is the top. */
  datatype List<+T> = Nil | Cons(head: T, tail: List<T>)

  function Len<T>(l: List<T>): nat
  {
    match l
    case Nil => 0
    case Cons(_, t) => 1 + Len(t)
  }

  function Nth<T>(l: List<T>, d: nat): T
    requires d < Len(l)
  {
    if d == 0 then l.head else Nth(l.tail, d - 1)
  }

  /** The list without its d-th entry. */
  function Without<T>(l: List<T>, d: nat): (r: List<T>)
    requires d < Len(l)
    ensures Len(r) == Len(l) - 1
  {
    if d == 0 then l.tail else Cons(l.head, Without(l.tail, d - 1))
  }

  /** Push the entries of a sequence, the last one ending on top. */
  function PushAll<T>(s: seq<T>, l: List<T>): (r: List<T>)
    ensures Len(r) == |s| + Len(l)
  {
    if |s| == 0 then l else PushAll(s[1..], Cons(s[0], l))
  }

  /** Push the entries of a sequence in reverse, the first one ending on top. */
  function Stack<T>(s: seq<T>, l: List<T>): (r: List<T>)
    ensures Len(r) == |s| + Len(l)
  {
    if |s| == 0 then l else Cons(s[0], Stack(s[1..], l))
  }

  lemma {:induction false} PushAllSnoc<T>(s: seq<T>, x: T, l: List<T>)
    ensures PushAll(s + [x], l) == Cons(x, PushAll(s, l))
  {
    if |s| == 0 {
      assert s + [x] == [x];
    } else {
      assert (s + [x])[1..] == s[1..] + [x];
      PushAllSnoc(s[1..], x, Cons(s[0], l));
    }
  }

  lemma {:induction false} StackAppend<T>(s: seq<T>, u: seq<T>, l: List<T>)
    ensures Stack(s + u, l) == Stack(s, Stack(u, l))
  {
    if |s| == 0 {
      assert s + u == u;
    } else {
      assert (s + u)[1..] == s[1..] + u;
      StackAppend(s[1..], u, l);
    }
  }
}
