/** The wire form of a signature, and why parsing it loses nothing. */
module SignatureBytes {
  import opened Arith
  import opened Bytes
  import opened Lists
  import opened Params
  import opened Emission
  import opened Witness
  import opened Reference
  import opened SlhFors
  import opened SlhLayer
  import opened SlhVerify
  import opened HostVerifier

  function GroupElements(g: Group): seq<Bytes> { [g.sk] + g.auth }

  function ForsElements(groups: seq<Group>): seq<Bytes>
  {
    if |groups| == 0 then [] else ForsElements(groups[..|groups| - 1]) + GroupElements(groups[|groups| - 1])
  }

  function LayerElements(l: Layer): seq<Bytes> { l.wots + l.auth }

  function HtElements(ht: seq<Layer>): seq<Bytes>
  {
    if |ht| == 0 then [] else HtElements(ht[..|ht| - 1]) + LayerElements(ht[|ht| - 1])
  }

  /** Randomness, FORS groups, hypertree layers: the order the verifier consumes. */
  function Elements(sig: Signature): seq<Bytes>
  {
    [sig.randomness] + ForsElements(sig.fors) + HtElements(sig.ht)
  }

  function ToBytes(sig: Signature): Bytes { Concat(Elements(sig)) }

  // ---- elements of a byte string -------------------------------------------

  lemma ElemsJoin(x: seq<Bytes>, el: nat, xs: seq<Bytes>, ys: seq<Bytes>)
    ensures ElemsAt(x, el, xs + ys) <==> ElemsAt(x, el, xs) && ElemsAt(x, el + |xs|, ys)
  {
    hide Elem;
    if ElemsAt(x, el, xs + ys) {
      forall j: nat | j < |xs|
        ensures xs[j] == Elem(x, el + j)
      {
        assert (xs + ys)[j] == Elem(x, el + j);
      }
      forall j: nat | j < |ys|
        ensures ys[j] == Elem(x, el + |xs| + j)
      {
        assert (xs + ys)[|xs| + j] == Elem(x, el + (|xs| + j));
      }
    }
  }

  lemma {:induction false} ConcatSize(xs: seq<Bytes>)
    requires ElementSizes(xs)
    ensures |Concat(xs)| == ELEM * |xs|
  {
    if |xs| > 0 {
      assert xs[0] in xs;
      assert forall e :: e in xs[1..] ==> e in xs;
      ConcatSize(xs[1..]);
    }
  }

  /** Equal-sized elements are cut out of their concatenation again. */
  lemma {:induction false} ConcatCut(xs: seq<Bytes>)
    requires ElementSizes(xs)
    ensures |Concat(xs)| == ELEM * |xs| && Chunks(Concat(xs), |xs|) == xs
  {
    ConcatSize(xs);
    if |xs| > 0 {
      assert xs[0] in xs;
      assert forall e :: e in xs[1..] ==> e in xs;
      ConcatCut(xs[1..]);
      var x, rest := Concat(xs), Concat(xs[1..]);
      assert x == xs[0] + rest && x[ELEM..] == rest;
      hide Concat, Chunk;
      forall j: nat | j < |xs|
        ensures xs[j] == Chunk(x, j)
      {
        if j > 0 {
          assert xs[1..][j - 1] == Chunk(rest, j - 1);
          ChunkShift(x, 1, j - 1);
        } else {
          FirstChunk(xs[0], rest);
        }
      }
    }
  }

  lemma FirstChunk(first: Bytes, rest: Bytes)
    requires |first| == ELEM
    ensures Chunk(first + rest, 0) == first
  {
    assert (first + rest)[..ELEM] == first;
  }

  /** A byte string is the concatenation of what it is cut into. */
  lemma {:induction false} CutConcat(x: Bytes, n: nat)
    requires |x| == ELEM * n
    ensures Concat(Chunks(x, n)) == x
  {
    if n > 0 {
      var xs, rest := Chunks(x, n), x[ELEM..];
      CutConcat(rest, n - 1);
      forall j: nat | j < n - 1
        ensures xs[1..][j] == Chunk(rest, j)
      {
        ChunkShift(x, 1, j);
      }
      assert xs[1..] == Chunks(rest, n - 1);
      assert xs[0] + rest == x;
    }
  }

  lemma {:induction false} SameElems(x: seq<Bytes>, el: nat, xs: seq<Bytes>, ys: seq<Bytes>)
    requires |xs| == |ys| && ElemsAt(x, el, xs) && ElemsAt(x, el, ys)
    ensures xs == ys
  {
    hide Elem;
  }

  // ---- groups and layers ---------------------------------------------------

  lemma GroupHeld(x: seq<Bytes>, el: nat, g: Group)
    ensures ElemsAt(x, el, GroupElements(g)) <==> GroupAt(x, el, g)
    ensures GroupAt(x, el, g) ==> el + (1 + |g.auth|) <= |x|
  {
    ElemsJoin(x, el, [g.sk], g.auth);
    OneElem(x, el, g.sk);
    hide Elem;
  }

  lemma LayerHeld(p: Params, x: seq<Bytes>, el: nat, l: Layer)
    requires p.lgw > 0 && |l.wots| == p.Len() && |l.auth| == p.hp
    ensures ElemsAt(x, el, LayerElements(l)) <==> LayerAt(p, x, el, l)
    ensures LayerAt(p, x, el, l) ==> el + (p.Len() + p.hp) <= |x|
  {
    hide Elem, Params.Len;
    ElemsJoin(x, el, l.wots, l.auth);
  }

  lemma HeldWithin(x: seq<Bytes>, el: nat, xs: seq<Bytes>)
    ensures ElemsAt(x, el, xs) ==> el + |xs| <= |x|
    ensures ElemsAt(x, el, []) <==> el <= |x|
  {
  }

  /** Holding a list of groups is holding their elements. */
  lemma {:induction false} GroupsHeld(x: seq<Bytes>, el: nat, a: nat, groups: seq<Group>)
    requires forall g :: g in groups ==> |g.auth| == a
    ensures |ForsElements(groups)| == Span(1 + a, |groups|)
    ensures ElemsAt(x, el, ForsElements(groups))
            <==> GroupsAt(x, el, a, groups) && el + Span(1 + a, |groups|) <= |x|
  {
    hide *;
    if |groups| == 0 {
      NoGroupsHeld(x, el, a);
    } else {
      var n := |groups| - 1;
      var g := groups[n];
      assert g in groups;
      assert forall h :: h in groups[..n] ==> h in groups;
      GroupsHeld(x, el, a, groups[..n]);
      GroupsSplit(x, el, a, groups);
      LastGroup(groups, a);
      ElemsJoin(x, el, ForsElements(groups[..n]), GroupElements(g));
      GroupHeld(x, el + Span(1 + a, n), g);
      HeldWithin(x, el, ForsElements(groups[..n]));
    }
  }

  lemma NoGroupsHeld(x: seq<Bytes>, el: nat, a: nat)
    ensures ForsElements([]) == [] && Span(1 + a, 0) == 0 && GroupsAt(x, el, a, [])
    ensures ElemsAt(x, el, []) <==> el <= |x|
  {
    HeldWithin(x, el, []);
    hide ElemsAt;
  }

  lemma LastGroup(groups: seq<Group>, a: nat)
    requires |groups| > 0
    ensures var n := |groups| - 1;
            && ForsElements(groups) == ForsElements(groups[..n]) + GroupElements(groups[n])
            && |GroupElements(groups[n])| == 1 + |groups[n].auth|
            && Span(1 + a, n + 1) == Span(1 + a, n) + (1 + a)
  {
  }

  lemma OneElem(x: seq<Bytes>, el: nat, e: Bytes)
    ensures ElemsAt(x, el, [e]) <==> el < |x| && e == Elem(x, el)
  {
    if ElemsAt(x, el, [e]) {
      assert [e][0] == Elem(x, el + 0);
    }
  }

  lemma GroupsSplit(x: seq<Bytes>, el: nat, a: nat, groups: seq<Group>)
    requires |groups| > 0
    ensures var n := |groups| - 1;
            GroupsAt(x, el, a, groups)
            <==> GroupsAt(x, el, a, groups[..n]) && |groups[n].auth| == a && GroupAt(x, el + Span(1 + a, n), groups[n])
  {
    hide GroupAt;
    var n := |groups| - 1;
    if GroupsAt(x, el, a, groups[..n]) && |groups[n].auth| == a && GroupAt(x, el + Span(1 + a, n), groups[n]) {
      forall i: nat | i < |groups|
        ensures |groups[i].auth| == a && GroupAt(x, el + Span(1 + a, i), groups[i])
      {
        if i < n {
          assert groups[..n][i] == groups[i];
        }
      }
    }
  }

  lemma LayersSplit(p: Params, x: seq<Bytes>, el: nat, ht: seq<Layer>)
    requires p.lgw > 0 && |ht| > 0
    ensures var n := |ht| - 1;
            LayersAt(p, x, el, ht)
            <==> LayersAt(p, x, el, ht[..n]) && LayerAt(p, x, el + Span(p.Len() + p.hp, n), ht[n])
  {
    hide LayerAt, Params.Len;
    var n := |ht| - 1;
    if LayersAt(p, x, el, ht[..n]) && LayerAt(p, x, el + Span(p.Len() + p.hp, n), ht[n]) {
      forall i: nat | i < |ht|
        ensures LayerAt(p, x, el + Span(p.Len() + p.hp, i), ht[i])
      {
        if i < n {
          assert ht[..n][i] == ht[i];
        }
      }
    }
  }

  /** Holding a list of layers is holding their elements. */
  lemma {:induction false} LayersHeld(p: Params, x: seq<Bytes>, el: nat, ht: seq<Layer>)
    requires p.lgw > 0 && forall l :: l in ht ==> |l.wots| == p.Len() && |l.auth| == p.hp
    ensures |HtElements(ht)| == Span(p.Len() + p.hp, |ht|)
    ensures ElemsAt(x, el, HtElements(ht))
            <==> LayersAt(p, x, el, ht) && el + Span(p.Len() + p.hp, |ht|) <= |x|
  {
    hide *;
    if |ht| == 0 {
      NoLayersHeld(p, x, el);
    } else {
      var n := |ht| - 1;
      var l := ht[n];
      assert l in ht;
      assert forall h :: h in ht[..n] ==> h in ht;
      LayersHeld(p, x, el, ht[..n]);
      LayersSplit(p, x, el, ht);
      LastLayer(p, x, el, ht);
      ElemsJoin(x, el, HtElements(ht[..n]), LayerElements(l));
      LayerHeld(p, x, el + Span(p.Len() + p.hp, n), l);
      HeldWithin(x, el, HtElements(ht[..n]));
    }
  }

  lemma NoLayersHeld(p: Params, x: seq<Bytes>, el: nat)
    requires p.lgw > 0
    ensures HtElements([]) == [] && Span(p.Len() + p.hp, 0) == 0 && LayersAt(p, x, el, [])
    ensures ElemsAt(x, el, []) <==> el <= |x|
  {
    HeldWithin(x, el, []);
    hide ElemsAt, Params.Len;
  }

  lemma LastLayer(p: Params, x: seq<Bytes>, el: nat, ht: seq<Layer>)
    requires p.lgw > 0 && |ht| > 0
    ensures var n := |ht| - 1;
            && HtElements(ht) == HtElements(ht[..n]) + LayerElements(ht[n])
            && |LayerElements(ht[n])| == |ht[n].wots| + |ht[n].auth|
            && Span(p.Len() + p.hp, n + 1) == Span(p.Len() + p.hp, n) + (p.Len() + p.hp)
  {
    hide Params.Len;
  }

  // ---- round trips ---------------------------------------------------------

  lemma FitsShapes(p: Params, sig: Signature)
    requires p.lgw > 0 && Fits(p, sig)
    ensures forall g :: g in sig.fors ==> |g.auth| == p.a
    ensures forall l :: l in sig.ht ==> |l.wots| == p.Len() && |l.auth| == p.hp
    ensures |sig.fors| == p.k && |sig.ht| == p.d
  {
    hide Params.Len;
  }

  /** A list of the right number of elements holds a signature exactly when it is the signature's elements in order. */
  lemma HoldsElements(p: Params, x: seq<Bytes>, sig: Signature)
    requires p.WellFormed() && p.lgw > 0 && Fits(p, sig) && |x| == p.SigElements()
    ensures |Elements(sig)| == |x| && (Holds(p, x, sig) <==> x == Elements(sig))
  {
    hide Params.WellFormed, Params.SigElements, Params.Len, Fits, LayersAt, GroupsAt, ElemsAt;
    PartsFill(p);
    FitsShapes(p, sig);
    var at := 1 + Span(1 + p.a, p.k);
    GroupsHeld(x, 1, p.a, sig.fors);
    LayersHeld(p, x, at, sig.ht);
    OneElem(x, 0, sig.randomness);
    HeldWithin(x, 0, Elements(sig));
    ElemsJoin(x, 0, [sig.randomness], ForsElements(sig.fors));
    ElemsJoin(x, 0, [sig.randomness] + ForsElements(sig.fors), HtElements(sig.ht));
    WholeList(x, Elements(sig));
  }

  lemma WholeList(x: seq<Bytes>, xs: seq<Bytes>)
    requires |xs| == |x|
    ensures ElemsAt(x, 0, xs) <==> x == xs
  {
    if ElemsAt(x, 0, xs) {
      forall j: nat | j < |x|
        ensures x[j] == xs[j]
      {
        assert xs[j] == Elem(x, 0 + j);
      }
    }
  }

  lemma {:induction false} ForsElementSizes(groups: seq<Group>)
    requires forall g :: g in groups ==> |g.sk| == N && ElementSizes(g.auth)
    ensures ElementSizes(ForsElements(groups))
  {
    if |groups| > 0 {
      assert groups[|groups| - 1] in groups;
      assert forall g :: g in groups[..|groups| - 1] ==> g in groups;
      ForsElementSizes(groups[..|groups| - 1]);
    }
  }

  lemma {:induction false} HtElementSizes(ht: seq<Layer>)
    requires forall l :: l in ht ==> ElementSizes(l.wots) && ElementSizes(l.auth)
    ensures ElementSizes(HtElements(ht))
  {
    if |ht| > 0 {
      assert ht[|ht| - 1] in ht;
      assert forall l :: l in ht[..|ht| - 1] ==> l in ht;
      HtElementSizes(ht[..|ht| - 1]);
    }
  }

  lemma MeasuredSizes(sig: Signature)
    requires Measured(sig)
    ensures ElementSizes(Elements(sig))
  {
    ForsElementSizes(sig.fors);
    HtElementSizes(sig.ht);
  }

  /** A signature that fits the set is found again in its elements. */
  lemma FromElementsOf(p: Params, sig: Signature)
    requires p.WellFormed() && p.lgw > 0 && Fits(p, sig)
    ensures |Elements(sig)| == p.SigElements() && FromElements(p, Elements(sig)) == Some(sig)
  {
    hide *;
    var xs := Elements(sig);
    ElementCount(p, sig);
    GivenHolds(p, xs);
    HoldsElements(p, xs, sig);
    HoldsUnique(p, xs, sig, FromElements(p, xs).value);
  }

  lemma ElementCount(p: Params, sig: Signature)
    requires p.WellFormed() && p.lgw > 0 && Fits(p, sig)
    ensures |Elements(sig)| == p.SigElements()
  {
    hide *;
    HoldsElements(p, seq(p.SigElements(), _ => []), sig);
  }

  /** Two signatures that fit one set and have the same elements are the same. */
  lemma HoldsUnique(p: Params, x: seq<Bytes>, s: Signature, t: Signature)
    requires p.lgw > 0 && Fits(p, s) && Fits(p, t) && Holds(p, x, s) && Holds(p, x, t)
    ensures s == t
  {
    hide Elem, Params.Len;
    FitsShapes(p, s);
    FitsShapes(p, t);
    forall i: nat | i < p.k
      ensures s.fors[i] == t.fors[i]
    {
      SameElems(x, 1 + Span(1 + p.a, i) + 1, s.fors[i].auth, t.fors[i].auth);
    }
    forall i: nat | i < p.d
      ensures s.ht[i] == t.ht[i]
    {
      var at := 1 + Span(1 + p.a, p.k) + Span(p.Len() + p.hp, i);
      SameElems(x, at, s.ht[i].wots, t.ht[i].wots);
      SameElems(x, at + p.Len(), s.ht[i].auth, t.ht[i].auth);
    }
  }

  /** Parsing inverts serializing. */
  lemma FromToBytes(p: Params, sig: Signature)
    requires p.WellFormed() && p.lgw > 0 && Fits(p, sig) && Measured(sig)
    ensures |ToBytes(sig)| == p.SigLen() && FromBytes(p, ToBytes(sig)) == Some(sig)
  {
    hide *;
    var x := ToBytes(sig);
    MeasuredSizes(sig);
    BytesOf(sig);
    ConcatCut(Elements(sig));
    FromElementsOf(p, sig);
    FromCut(p, x);
  }

  lemma BytesOf(sig: Signature)
    ensures ToBytes(sig) == Concat(Elements(sig))
  {
  }

  /** Parsing the bytes is parsing the elements they are cut into. */
  lemma FromCut(p: Params, x: Bytes)
    requires p.WellFormed()
    ensures |x| == p.SigLen() <==> |x| == ELEM * p.SigElements()
    ensures |x| == p.SigLen() ==> FromBytes(p, x) == FromElements(p, Chunks(x, p.SigElements()))
  {
    DigitWidth(p);
    hide Params.WellFormed, Params.SigElements, Params.SigLen, FromElements, Chunks;
  }

  /** Serializing inverts parsing. */
  lemma ToFromBytes(p: Params, x: Bytes)
    requires p.WellFormed() && |x| == p.SigLen()
    ensures ToBytes(FromBytes(p, x).value) == x
  {
    hide *;
    var sig := FromBytes(p, x).value;
    DigitWidth(p);
    FromCut(p, x);
    GivenHolds(p, Chunks(x, p.SigElements()));
    HoldsElements(p, Chunks(x, p.SigElements()), sig);
    CutConcat(x, p.SigElements());
    BytesOf(sig);
  }

  // ---- offsets -------------------------------------------------------------

  /** Element n of the wire bytes. */
  function At(x: Bytes, n: nat): Bytes
    requires (n + 1) * 16 <= |x|
  {
    x[16 * n..16 * n + 16]
  }

  /** FORS tree i's secret is element 1 + i * (1 + a), its path behind it. */
  predicate GroupsBytes(x: Bytes, a: nat, groups: seq<Group>)
  {
    forall i: nat :: i < |groups| ==> GroupBytes(x, a, i * (1 + a), groups[i])
  }

  /** Layer j's chains start at element 1 + fors + j * (len + h'), its path behind them. */
  predicate LayersBytes(x: Bytes, len: nat, hp: nat, fors: int, ht: seq<Layer>)
  {
    forall j: nat :: j < |ht| ==> LayerBytes(x, len, hp, fors, j * (len + hp), ht[j])
  }

  /** Where everything sits, in elements of sixteen bytes: the randomizer, then the FORS groups, then the layers. */
  lemma WireOffsets(p: Params, x: Bytes)
    requires p.WellFormed() && |x| == p.SigLen() && p.lgw > 0
    ensures FromBytes(p, x).Some? && |x| == 16 * p.SigElements()
    ensures var s := FromBytes(p, x).value;
            && |s.fors| == p.k && |s.ht| == p.d && s.randomness == x[..16]
            && GroupsBytes(x, p.a, s.fors) && LayersBytes(x, p.Len(), p.hp, p.k * (1 + p.a), s.ht)
  {
    hide Params.WellFormed, Params.SigElements, Params.SigLen, Params.Len, Params.MdLen, Holds, Fits, FromBytes, FromElements;
    hide GroupsAt, LayersAt, Elem, GroupsBytes, LayersBytes, Chunks, Chunk, Span;
    DigitWidth(p);
    FromCut(p, x);
    var n := p.SigElements();
    var xs := Chunks(x, n);
    var s := FromBytes(p, x).value;
    GivenHolds(p, xs);
    FitsShapes(p, s);
    HoldsParts(p, xs, s);
    FirstElement(x, n);
    GroupsOffsets(x, n, p.a, s.fors);
    LayersOffsets(p, x, n, s.ht);
  }

  lemma GroupsOffsets(x: Bytes, n: nat, a: nat, groups: seq<Group>)
    requires n * ELEM == |x| && GroupsAt(Chunks(x, n), 1, a, groups)
    ensures GroupsBytes(x, a, groups)
  {
    hide GroupsAt, GroupBytes;
    forall i: nat | i < |groups|
      ensures GroupBytes(x, a, i * (1 + a), groups[i])
    {
      GroupOffsets(x, n, a, groups, i);
    }
  }

  lemma LayersOffsets(p: Params, x: Bytes, n: nat, ht: seq<Layer>)
    requires p.lgw > 0 && n * ELEM == |x| && LayersAt(p, Chunks(x, n), 1 + Span(1 + p.a, p.k), ht)
    ensures LayersBytes(x, p.Len(), p.hp, p.k * (1 + p.a), ht)
  {
    hide LayersAt, LayerBytes, Params.Len, Span;
    forall j: nat | j < |ht|
      ensures LayerBytes(x, p.Len(), p.hp, p.k * (1 + p.a), j * (p.Len() + p.hp), ht[j])
    {
      LayerOffsets(p, x, n, ht, j);
    }
  }

  /** A group `at` elements into the FORS part. */
  predicate GroupBytes(x: Bytes, a: nat, at: int, g: Group)
  {
    && 0 <= at && 16 * (2 + at + a) <= |x| && |g.auth| == a && g.sk == At(x, 1 + at)
    && forall j: nat :: j < a ==> g.auth[j] == At(x, 2 + at + j)
  }

  /** A layer `at` elements into the hypertree part, which is behind `fors` FORS elements. */
  predicate LayerBytes(x: Bytes, len: nat, hp: nat, fors: int, at: int, l: Layer)
  {
    && 0 <= fors && 0 <= at && 16 * (1 + fors + at + len + hp) <= |x| && |l.wots| == len && |l.auth| == hp
    && (forall i: nat :: i < len ==> l.wots[i] == At(x, 1 + fors + at + i))
    && forall i: nat :: i < hp ==> l.auth[i] == At(x, 1 + fors + at + len + i)
  }

  lemma FirstElement(x: Bytes, n: nat)
    requires 0 < n && n * ELEM == |x|
    ensures Elem(Chunks(x, n), 0) == x[..16]
  {
  }

  lemma GroupOffsets(x: Bytes, n: nat, a: nat, groups: seq<Group>, i: nat)
    requires n * ELEM == |x| && i < |groups| && GroupsAt(Chunks(x, n), 1, a, groups)
    ensures GroupBytes(x, a, i * (1 + a), groups[i])
  {
    SpanIsProduct(1 + a, i);
    var at := Span(1 + a, i);
    assert GroupAt(Chunks(x, n), 1 + at, groups[i]);
    hide Span;
    forall j: nat | j < a
      ensures groups[i].auth[j] == At(x, 2 + at + j)
    {
      assert groups[i].auth[j] == Elem(Chunks(x, n), 1 + at + 1 + j);
    }
  }

  lemma LayerOffsets(p: Params, x: Bytes, n: nat, ht: seq<Layer>, i: nat)
    requires p.lgw > 0 && n * ELEM == |x| && i < |ht|
    requires LayersAt(p, Chunks(x, n), 1 + Span(1 + p.a, p.k), ht)
    ensures LayerBytes(x, p.Len(), p.hp, p.k * (1 + p.a), i * (p.Len() + p.hp), ht[i])
  {
    SpanIsProduct(1 + p.a, p.k);
    SpanIsProduct(p.Len() + p.hp, i);
    var fors, at := Span(1 + p.a, p.k), Span(p.Len() + p.hp, i);
    assert LayerAt(p, Chunks(x, n), 1 + fors + at, ht[i]);
    hide Span, Params.Len, LayersAt;
    LayerSlices(Chunks(x, n), x, n, p.Len(), 1 + fors + at, ht[i].wots);
    LayerSlices(Chunks(x, n), x, n, p.hp, 1 + fors + at + p.Len(), ht[i].auth);
  }

  lemma LayerSlices(xs: seq<Bytes>, x: Bytes, n: nat, count: nat, at: nat, part: seq<Bytes>)
    requires n * ELEM == |x| && xs == Chunks(x, n) && |part| == count && ElemsAt(xs, at, part)
    ensures 16 * (at + count) <= |x| && forall i: nat :: i < count ==> part[i] == At(x, at + i)
  {
    forall i: nat | i < count
      ensures part[i] == At(x, at + i)
    {
      assert part[i] == Elem(xs, at + i);
    }
  }

  // ---- the host's flat form ------------------------------------------------

  lemma SliceHeld(x: seq<Bytes>, el: nat, xs: seq<Bytes>, from: nat, n: nat)
    requires ElemsAt(x, el, xs) && from + n <= |xs|
    ensures ElemsAt(x, el + from, xs[from..from + n])
  {
    hide Elem;
    var ys := xs[from..from + n];
    forall j: nat | j < n
      ensures ys[j] == Elem(x, el + from + j)
    {
      assert xs[from + j] == Elem(x, el + (from + j));
    }
  }

  /** Cutting the flat FORS list into groups keeps every element where it was. */
  lemma FlatGroups(x: seq<Bytes>, el: nat, fors: seq<Bytes>, a: nat, k: nat)
    requires |fors| == k * (1 + a) && ElemsAt(x, el, fors)
    ensures GroupsAt(x, el, a, ForsGroups(fors, a, k))
  {
    hide Elem;
    var groups := ForsGroups(fors, a, k);
    forall i: nat | i < k
      ensures |groups[i].auth| == a && GroupAt(x, el + Span(1 + a, i), groups[i])
    {
      RecordFits(i, k, 1 + a);
      SpanIsProduct(1 + a, i);
      var at := i * (1 + a);
      assert fors[at] == Elem(x, el + at);
      SliceHeld(x, el, fors, at + 1, a);
    }
  }

  lemma FlatLayer(x: seq<Bytes>, el: nat, ht: seq<Bytes>, len: nat, hp: nat, d: nat, i: nat)
    requires |ht| == d * (len + hp) && ElemsAt(x, el, ht) && i < d
    ensures var l := HtLayer(ht, len, hp, d, i);
            var at := el + Span(len + hp, i);
            |l.wots| == len && |l.auth| == hp && ElemsAt(x, at, l.wots) && ElemsAt(x, at + len, l.auth)
  {
    hide Elem, ElemsAt;
    RecordFits(i, d, len + hp);
    SpanIsProduct(len + hp, i);
    SliceHeld(x, el, ht, i * (len + hp), len);
    SliceHeld(x, el, ht, i * (len + hp) + len, hp);
  }

  lemma FlatLayers(p: Params, x: seq<Bytes>, el: nat, ht: seq<Bytes>)
    requires p.lgw > 0 && |ht| == p.d * (p.Len() + p.hp) && ElemsAt(x, el, ht)
    ensures LayersAt(p, x, el, HtLayers(ht, p.Len(), p.hp, p.d))
  {
    hide Params.Len, ElemsAt, HtLayer;
    var layers := HtLayers(ht, p.Len(), p.hp, p.d);
    forall i: nat | i < p.d
      ensures LayerAt(p, x, el + Span(p.Len() + p.hp, i), layers[i])
    {
      FlatLayer(x, el, ht, p.Len(), p.hp, p.d, i);
    }
  }

  /** Cut a byte string into 16-byte elements. */
  method CutLoop(x: Bytes, count: nat) returns (elems: seq<Bytes>)
    requires |x| == ELEM * count
    ensures elems == Chunks(x, count)
  {
    elems := [];
    var i := 0;
    while i < count
      invariant 0 <= i <= count && |elems| == i
      invariant forall j: nat :: j < i ==> elems[j] == Chunk(x, j)
    {
      elems := elems + [Chunk(x, i)];
      i := i + 1;
    }
  }

  lemma FlatShape(p: Params, k: nat, a: nat, d: nat, layer: nat)
    requires p.lgw > 0 && k == p.k && a == p.a && d == p.d && layer == p.Len() + p.hp
    requires 1 + Span(1 + p.a, p.k) + Span(p.Len() + p.hp, p.d) == p.SigElements()
    ensures p.SigElements() == 1 + k * (1 + a) + d * layer
  {
    hide Params.SigElements, Params.Len;
    SpanIsProduct(1 + a, k);
    SpanIsProduct(layer, d);
  }

  /** `Signature::from_bytes`: refused on a wrong length, otherwise the same signature as the reference parser's. */
  method ParseSignature(p: Params, x: Bytes) returns (r: Option<HostSignature>)
    requires p.lgw > 0 && p.WellFormed()
    ensures r.Some? <==> |x| == p.SigLen()
    ensures r.Some? ==> Shaped(p, r.value) && FromBytes(p, x) == Some(Structured(p, r.value))
  {
    if |x| != p.SigLen() {
      return None;
    }
    hide *;
    var n := p.SigElements();
    FromCut(p, x);
    var elems := CutLoop(x, n);
    ChunkSizes(x, n);
    var count := p.k * (1 + p.a);
    ForsWithin(p, count, n);
    var s := HostSignature(elems[0], elems[1..1 + count], elems[1 + count..]);
    FlatParsed(p, elems, count, p.d * (p.Len() + p.hp), s);
    return Some(s);
  }

  lemma ForsWithin(p: Params, count: int, n: nat)
    requires p.lgw > 0 && p.WellFormed() && count == p.k * (1 + p.a) && n == p.SigElements()
    ensures count >= 0 && p.d * (p.Len() + p.hp) >= 0 && n == 1 + count + p.d * (p.Len() + p.hp)
  {
    hide *;
    PartsFill(p);
    FlatShape(p, p.k, p.a, p.d, p.Len() + p.hp);
    NotNegative(p.k, 1 + p.a);
    NotNegative(p.d, p.Len() + p.hp);
  }

  lemma NotNegative(a: nat, b: nat)
    ensures a * b >= 0
  {
  }

  lemma FlatParsed(p: Params, elems: seq<Bytes>, count: nat, rest: nat, s: HostSignature)
    requires p.lgw > 0 && p.WellFormed() && |elems| == p.SigElements()
    requires count == p.k * (1 + p.a) && rest == p.d * (p.Len() + p.hp) && |elems| == 1 + count + rest
    requires ElementSizes(elems) && s == HostSignature(elems[0], elems[1..1 + count], elems[1 + count..])
    ensures Shaped(p, s) && FromElements(p, elems) == Some(Structured(p, s))
  {
    hide *;
    FlatSizes(p, elems, count, rest, s);
    WholeList(elems, elems);
    SliceHeld(elems, 0, elems, 1, count);
    SliceHeld(elems, 0, elems, 1 + count, rest);
    assert elems[1 + count..1 + count + rest] == elems[1 + count..];
    FlatGroups(elems, 1, s.fors, p.a, p.k);
    FlatLayers(p, elems, 1 + count, s.ht);
    SpanIsProduct(1 + p.a, p.k);
    StructuredFits(p, s);
    GivenHolds(p, elems);
    FlatHolds(p, elems, s);
    HoldsUnique(p, elems, Structured(p, s), FromElements(p, elems).value);
  }

  lemma FlatSizes(p: Params, elems: seq<Bytes>, count: nat, rest: nat, s: HostSignature)
    requires p.lgw > 0 && count == p.k * (1 + p.a) && rest == p.d * (p.Len() + p.hp) && |elems| == 1 + count + rest
    requires ElementSizes(elems) && s == HostSignature(elems[0], elems[1..1 + count], elems[1 + count..])
    ensures Shaped(p, s)
  {
    hide Params.Len;
  }

  lemma FlatHolds(p: Params, elems: seq<Bytes>, s: HostSignature)
    requires p.lgw > 0 && Shaped(p, s) && |elems| > 0 && s.randomness == elems[0]
    requires GroupsAt(elems, 1, p.a, ForsGroups(s.fors, p.a, p.k))
    requires LayersAt(p, elems, 1 + Span(1 + p.a, p.k), HtLayers(s.ht, p.Len(), p.hp, p.d))
    ensures Holds(p, elems, Structured(p, s))
  {
    hide Params.Len, GroupsAt, LayersAt, ForsGroups, HtLayers, Shaped;
  }
}
