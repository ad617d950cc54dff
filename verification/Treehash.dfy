/** Streaming treehash against the recursive Merkle tree. */
module Treehash {
  import opened Arith
  import opened Bytes

  type LeafFn = nat -> Bytes
  type JoinFn = (nat, nat, Bytes, Bytes) -> Bytes

  /** The node at height z and index i, by definition. */
  function Tree(leaf: LeafFn, join: JoinFn, z: nat, i: nat): Bytes
  {
    if z == 0 then leaf(i) else join(z, i, Tree(leaf, join, z - 1, 2 * i), Tree(leaf, join, z - 1, 2 * i + 1))
  }

  /** i ^ 1. */
  function Sibling(i: nat): nat { if i % 2 == 0 then i + 1 else i - 1 }

  /** The authentication path of a leaf: the sibling of each of its ancestors. */
  function AuthPath(leaf: LeafFn, join: JoinFn, target: nat, z: nat): (r: seq<Bytes>)
    ensures |r| == z
    ensures forall j :: 0 <= j < z ==> r[j] == Tree(leaf, join, j, Sibling(Shr(target, j)))
  {
    seq(z, j requires 0 <= j => Tree(leaf, join, j, Sibling(Shr(target, j))))
  }

  /** Folding a path from a leaf, operands ordered by the bits of its index. */
  function Fold(join: JoinFn, target: nat, node: Bytes, auth: seq<Bytes>, n: nat): Bytes
    requires n <= |auth|
  {
    if n == 0 then node
    else
      var below := Fold(join, target, node, auth, n - 1);
      if Shr(target, n - 1) % 2 == 0 then join(n, Shr(target, n), below, auth[n - 1])
      else join(n, Shr(target, n), auth[n - 1], below)
  }

  lemma ShrOne(n: nat, k: nat)
    ensures Shr(n, k + 1) == Shr(n, k) / 2
  {
    ShrTwice(n, k, 1);
  }

  /** The path opens its leaf: folding it from the leaf reaches every ancestor, and so the root. */
  lemma {:induction false} FoldIsTree(leaf: LeafFn, join: JoinFn, target: nat, z: nat, n: nat)
    requires n <= z
    ensures Fold(join, target, leaf(target), AuthPath(leaf, join, target, z), n) == Tree(leaf, join, n, Shr(target, n))
  {
    hide *;
    if n == 0 {
      NoFold(leaf, join, target, AuthPath(leaf, join, target, z));
    } else {
      FoldIsTree(leaf, join, target, z, n - 1);
      ShrOne(target, n - 1);
      var t, auth := Shr(target, n - 1), AuthPath(leaf, join, target, z);
      SiblingPair(t);
      FoldOnce(join, target, leaf(target), auth, n);
      TreeOnce(leaf, join, n, t);
    }
  }

  lemma NoFold(leaf: LeafFn, join: JoinFn, target: nat, auth: seq<Bytes>)
    ensures Fold(join, target, leaf(target), auth, 0) == Tree(leaf, join, 0, Shr(target, 0))
  {
    ShrZero(target);
  }

  lemma FoldOnce(join: JoinFn, target: nat, node: Bytes, auth: seq<Bytes>, n: nat)
    requires 0 < n <= |auth|
    ensures var below := Fold(join, target, node, auth, n - 1);
            Fold(join, target, node, auth, n)
            == if Shr(target, n - 1) % 2 == 0 then join(n, Shr(target, n), below, auth[n - 1])
               else join(n, Shr(target, n), auth[n - 1], below)
  {
    hide Shr;
  }

  /** A node from its two children, one of them node t. */
  lemma TreeOnce(leaf: LeafFn, join: JoinFn, n: nat, t: nat)
    requires n > 0
    ensures Tree(leaf, join, n, t / 2)
            == if t % 2 == 0 then join(n, t / 2, Tree(leaf, join, n - 1, t), Tree(leaf, join, n - 1, t + 1))
               else join(n, t / 2, Tree(leaf, join, n - 1, t - 1), Tree(leaf, join, n - 1, t))
  {
    if t % 2 == 0 {
      assert 2 * (t / 2) == t;
    } else {
      assert 2 * (t / 2) + 1 == t;
    }
  }

  lemma SiblingPair(t: nat)
    ensures t % 2 == 0 ==> Sibling(t) == t + 1
    ensures t % 2 != 0 ==> Sibling(t) == t - 1
  {
  }

  // ---- the pending stack ---------------------------------------------------

  datatype Pending = Pending(height: nat, index: nat, value: Bytes)

  /**
   * The stack after `q` subtrees of height h: one finished node for each set bit of q, the highest first. It is the
   * binary expansion of the leaf counter.
   */
  function PendingNodes(leaf: LeafFn, join: JoinFn, q: nat, h: nat): (r: seq<Pending>)
    ensures forall e :: e in r ==> e.height >= h
  {
    if q == 0 then []
    else
      PendingNodes(leaf, join, q / 2, h + 1)
      + (if q % 2 == 1 then [Pending(h, q - 1, Tree(leaf, join, h, q - 1))] else [])
  }

  /** No more nodes wait than the counter has bits. */
  lemma {:induction false} PendingSize(leaf: LeafFn, join: JoinFn, q: nat, h: nat, bits: nat)
    requires q < Pow2(bits)
    ensures |PendingNodes(leaf, join, q, h)| <= bits
  {
    if q > 0 {
      PendingSize(leaf, join, q / 2, h + 1, bits - 1);
    }
  }

  /** Appending a finished node of height h on top of an even counter is the counter one step on. */
  lemma {:induction false} PendingPush(leaf: LeafFn, join: JoinFn, q: nat, h: nat)
    requires q % 2 == 0
    ensures PendingNodes(leaf, join, q, h) + [Pending(h, q, Tree(leaf, join, h, q))] == PendingNodes(leaf, join, q + 1, h)
  {
    if q == 0 {
      assert PendingNodes(leaf, join, 0, h + 1) == [];
    } else {
      assert (q + 1) / 2 == q / 2;
    }
  }

  /** A counter whose low h bits are clear has the same stack whether its bits are read from 0 or from h. */
  lemma {:induction false} PendingShift(leaf: LeafFn, join: JoinFn, q: nat, h: nat)
    ensures PendingNodes(leaf, join, q * Pow2(h), 0) == PendingNodes(leaf, join, q, h)
  {
    PendingShiftFrom(leaf, join, q, h, 0);
  }

  lemma {:induction false} PendingShiftFrom(leaf: LeafFn, join: JoinFn, q: nat, h: nat, base: nat)
    ensures PendingNodes(leaf, join, q * Pow2(h), base) == PendingNodes(leaf, join, q, h + base)
  {
    if q > 0 && h > 0 {
      var n := q * Pow2(h - 1);
      Doubled(q, h, n);
      PendingShiftFrom(leaf, join, q, h - 1, base + 1);
      hide Pow2, Tree;
    } else if q > 0 {
      assert Pow2(0) == 1;
    }
  }

  lemma Doubled(q: nat, h: nat, n: nat)
    requires q > 0 && h > 0 && n == q * Pow2(h - 1)
    ensures n > 0 && q * Pow2(h) == 2 * n && q * Pow2(h) / 2 == n && q * Pow2(h) % 2 == 0
  {
    MulAssoc(q, 2, Pow2(h - 1));
    MulMono(1, q, Pow2(h - 1));
  }

  // ---- the loop ------------------------------------------------------------

  /** Node (j, s) is complete once the leaves below it have been consumed. */
  predicate Complete(j: nat, s: nat, leaves: nat)
  {
    (s + 1) * Pow2(j) <= leaves
  }

  /** Every path node complete by now has been stored. */
  ghost predicate AuthSoFar(leaf: LeafFn, join: JoinFn, target: nat, auth: seq<Bytes>, leaves: nat)
  {
    forall j: nat :: j < |auth| && Complete(j, Sibling(Shr(target, j)), leaves) ==>
      auth[j] == Tree(leaf, join, j, Sibling(Shr(target, j)))
  }

  /** The same while leaf i is being merged upward: of the nodes it completes, those below `height` are stored. */
  ghost predicate AuthMerging(leaf: LeafFn, join: JoinFn, target: nat, auth: seq<Bytes>, i: nat, height: nat)
  {
    forall j: nat :: j < |auth| && Complete(j, Sibling(Shr(target, j)), i + 1)
                     && (Complete(j, Sibling(Shr(target, j)), i) || j < height) ==>
      auth[j] == Tree(leaf, join, j, Sibling(Shr(target, j)))
  }

  /** The only node of height h that leaf i completes is the one being held. */
  lemma CompletedNow(j: nat, s: nat, i: nat, height: nat, index: nat)
    requires (index + 1) * Pow2(height) == i + 1
    ensures j == height && Complete(j, s, i + 1) && !Complete(j, s, i) ==> s == index
    ensures j > height && index % 2 == 0 && Complete(j, s, i + 1) ==> Complete(j, s, i)
  {
    hide Pow2;
    if j == height && Complete(j, s, i + 1) && !Complete(j, s, i) {
      if s < index {
        MulMono(s + 1, index, Pow2(j));
      } else if s > index {
        MulMono(index + 2, s + 1, Pow2(j));
      }
    }
    if j > height && index % 2 == 0 && Complete(j, s, i + 1) {
      OddMultiple(j, s, height, index);
    }
  }

  /** An odd multiple of 2^h is no multiple of a higher power. */
  lemma OddMultiple(j: nat, s: nat, height: nat, index: nat)
    requires j > height && index % 2 == 0
    ensures (s + 1) * Pow2(j) != (index + 1) * Pow2(height)
  {
    var d := j - height - 1;
    Pow2Add(height + 1, d);
    var p := Pow2(height);
    assert Pow2(height + 1) == 2 * p;
    if (s + 1) * Pow2(j) == (index + 1) * p {
      var m := (s + 1) * Pow2(d);
      Regroup(s + 1, p, Pow2(d), Pow2(j));
      assert (2 * m) * p == (index + 1) * p;
      Cancel(2 * m, index + 1, p);
    }
  }

  lemma Regroup(a: nat, p: nat, e: nat, all: nat)
    requires all == 2 * p * e
    ensures a * all == (2 * (a * e)) * p
  {
    calc {
      a * all;
      a * (2 * p * e);
      { MulAssoc(a, 2 * p, e); }
      a * (2 * p) * e;
      (2 * (a * e)) * p;
    }
  }

  lemma Cancel(a: nat, b: nat, p: nat)
    requires p > 0 && a * p == b * p
    ensures a == b
  {
    if a < b {
      MulMono(a + 1, b, p);
    } else if b < a {
      MulMono(b + 1, a, p);
    }
  }

  /** Storing the held node if it is on the path. */
  lemma Stored(leaf: LeafFn, join: JoinFn, target: nat, auth: seq<Bytes>, i: nat, height: nat, index: nat)
    requires (index + 1) * Pow2(height) == i + 1
    requires AuthMerging(leaf, join, target, auth, i, height)
    ensures var v := Tree(leaf, join, height, index);
            var next := if height < |auth| && index == Sibling(Shr(target, height)) then auth[height := v] else auth;
            AuthMerging(leaf, join, target, next, i, height + 1)
  {
    hide Complete, Tree, Shr, Sibling, Pow2;
    var v := Tree(leaf, join, height, index);
    var next := if height < |auth| && index == Sibling(Shr(target, height)) then auth[height := v] else auth;
    forall j: nat | j < |next| && Complete(j, Sibling(Shr(target, j)), i + 1)
                    && (Complete(j, Sibling(Shr(target, j)), i) || j < height + 1)
      ensures next[j] == Tree(leaf, join, j, Sibling(Shr(target, j)))
    {
      CompletedNow(j, Sibling(Shr(target, j)), i, height, index);
    }
  }

  /** When merging stops, everything the leaf completed is stored. */
  lemma Merged(leaf: LeafFn, join: JoinFn, target: nat, auth: seq<Bytes>, i: nat, height: nat, index: nat)
    requires (index + 1) * Pow2(height) == i + 1 && index % 2 == 0
    requires AuthMerging(leaf, join, target, auth, i, height + 1)
    ensures AuthSoFar(leaf, join, target, auth, i + 1)
  {
    hide Complete, Tree, Shr, Sibling, Pow2;
    forall j: nat | j < |auth| && Complete(j, Sibling(Shr(target, j)), i + 1)
      ensures auth[j] == Tree(leaf, join, j, Sibling(Shr(target, j)))
    {
      CompletedNow(j, Sibling(Shr(target, j)), i, height, index);
    }
  }

  lemma StartMerging(leaf: LeafFn, join: JoinFn, target: nat, auth: seq<Bytes>, i: nat)
    requires AuthSoFar(leaf, join, target, auth, i)
    ensures AuthMerging(leaf, join, target, auth, i, 0)
  {
    hide Complete, Tree, Shr, Sibling;
  }

  /** Every path node of a leaf inside the tree is complete once the tree is. */
  lemma {:induction false} AllComplete(target: nat, z: nat, j: nat)
    requires target < Pow2(z) && j < z
    ensures Complete(j, Sibling(Shr(target, j)), Pow2(z))
  {
    var t := Shr(target, j);
    assert t == target / Pow2(j);
    Pow2Add(j, z - j);
    DivLess(target, Pow2(j), Pow2(z - j));
    SiblingBelow(t, z - j);
    hide Pow2, Sibling, Shr, Complete;
    MulMono(Sibling(t) + 1, Pow2(z - j), Pow2(j));
    CompleteWhen(j, Sibling(t), Pow2(z - j), Pow2(z));
  }

  lemma CompleteWhen(j: nat, s: nat, row: nat, leaves: nat)
    requires (s + 1) * Pow2(j) <= row * Pow2(j) && Pow2(j) * row == leaves
    ensures Complete(j, s, leaves)
  {
  }

  lemma SiblingBelow(t: nat, bits: nat)
    requires bits > 0 && t < Pow2(bits)
    ensures Sibling(t) + 1 <= Pow2(bits)
  {
  }

  /** The counter's odd part after merging: node (height, index) is held and height more bits have been cleared. */
  lemma MergeUp(height: nat, index: nat, i: nat)
    requires (index + 1) * Pow2(height) == i + 1 && index % 2 == 1
    ensures (index / 2 + 1) * Pow2(height + 1) == i + 1
  {
    var p := Pow2(height);
    MulAssoc(index / 2 + 1, 2, p);
    assert index + 1 == (index / 2 + 1) * 2;
  }

  lemma HeightBound(height: nat, index: nat, i: nat, z: nat)
    requires (index + 1) * Pow2(height) == i + 1 && i < Pow2(z)
    ensures height <= z
  {
    MulMono(1, index + 1, Pow2(height));
    if height > z {
      Pow2Strict(z, height);
    }
  }

  /** What one leaf's merging loop keeps. */
  ghost predicate Merging(leaf: LeafFn, join: JoinFn, target: nat, z: nat, i: nat, stack: seq<Pending>, auth: seq<Bytes>,
                          height: nat, index: nat, value: Bytes)
  {
    && (index + 1) * Pow2(height) == i + 1 && |auth| == z
    && stack == PendingNodes(leaf, join, index, height)
    && value == Tree(leaf, join, height, index)
    && AuthMerging(leaf, join, target, auth, i, height)
  }

  /** The top of the stack has the held height exactly when the index is odd, and then it is the left sibling. */
  lemma TopOfStack(leaf: LeafFn, join: JoinFn, index: nat, height: nat)
    ensures var s := PendingNodes(leaf, join, index, height);
            var top := |s| > 0 && s[|s| - 1].height == height;
            && (top <==> index % 2 == 1)
            && (top ==> s[|s| - 1].index == Sibling(index)
                        && s[|s| - 1].value == Tree(leaf, join, height, index - 1)
                        && s[..|s| - 1] == PendingNodes(leaf, join, index / 2, height + 1))
  {
    if index > 0 {
      var below := PendingNodes(leaf, join, index / 2, height + 1);
      var s := PendingNodes(leaf, join, index, height);
      if index % 2 == 1 {
        assert s[..|s| - 1] == below;
      } else {
        assert s == below;
        if |s| > 0 {
          assert s[|s| - 1] in below;
        }
      }
    }
  }

  lemma LeafIsTree(leaf: LeafFn, join: JoinFn, i: nat)
    ensures Tree(leaf, join, 0, i) == leaf(i) && (i + 1) * Pow2(0) == i + 1
  {
  }

  lemma JoinIsTree(leaf: LeafFn, join: JoinFn, height: nat, index: nat)
    requires index % 2 == 1
    ensures Tree(leaf, join, height + 1, index / 2)
            == join(height + 1, index / 2, Tree(leaf, join, height, index - 1), Tree(leaf, join, height, index))
  {
    hide Tree;
    TreeStep(leaf, join, height, index / 2);
  }

  lemma TreeStep(leaf: LeafFn, join: JoinFn, height: nat, i: nat)
    ensures Tree(leaf, join, height + 1, i)
            == join(height + 1, i, Tree(leaf, join, height, 2 * i), Tree(leaf, join, height, 2 * i + 1))
  {
  }

  lemma NothingYet(leaf: LeafFn, join: JoinFn, target: nat, auth: seq<Bytes>)
    ensures PendingNodes(leaf, join, 0, 0) == [] && AuthSoFar(leaf, join, target, auth, 0)
  {
    forall j: nat, s: nat
      ensures !Complete(j, s, 0)
    {
      MulMono(1, s + 1, Pow2(j));
    }
  }

  lemma StackFits(leaf: LeafFn, join: JoinFn, i: nat, z: nat)
    requires i <= Pow2(z)
    ensures |PendingNodes(leaf, join, i, 0)| <= z + 1
  {
    PendingSize(leaf, join, i, 0, z + 1);
  }

  lemma RootAlone(leaf: LeafFn, join: JoinFn, z: nat)
    ensures PendingNodes(leaf, join, Pow2(z), 0) == [Pending(z, 0, Tree(leaf, join, z, 0))]
  {
    PendingShift(leaf, join, 1, z);
    OneNode(leaf, join, z);
    hide PendingNodes, Tree, Pow2;
  }

  lemma OneNode(leaf: LeafFn, join: JoinFn, z: nat)
    ensures PendingNodes(leaf, join, 1, z) == [Pending(z, 0, Tree(leaf, join, z, 0))]
  {
    hide Tree;
    assert PendingNodes(leaf, join, 0, z + 1) == [];
  }

  lemma PathFilled(leaf: LeafFn, join: JoinFn, target: nat, auth: seq<Bytes>, z: nat)
    requires target < Pow2(z) && |auth| == z && AuthSoFar(leaf, join, target, auth, Pow2(z))
    ensures auth == AuthPath(leaf, join, target, z)
  {
    hide Complete, Tree, Shr, Sibling, Pow2;
    forall j | 0 <= j < z
      ensures auth[j] == Tree(leaf, join, j, Sibling(Shr(target, j)))
    {
      AllComplete(target, z, j);
    }
  }
}
