/** The blob plan: how a signature is cut into pushes, and the queue the alt stack holds while it is consumed. */
module Witness {
  import opened Arith
  import opened Bytes
  import opened Lists
  import opened Machine
  import opened Emission

  function Sum(blobs: seq<nat>): nat
  {
    if |blobs| == 0 then 0 else blobs[0] + Sum(blobs[1..])
  }

  function Largest(blobs: seq<nat>): nat
  {
    if |blobs| == 0 then 0 else Max(blobs[0], Largest(blobs[1..]))
  }

  predicate Positive(blobs: seq<nat>)
  {
    forall i :: 0 <= i < |blobs| ==> blobs[i] > 0
  }

  lemma {:induction false} SumAppend(a: seq<nat>, b: seq<nat>)
    ensures Sum(a + b) == Sum(a) + Sum(b)
  {
    if |a| == 0 {
      assert a + b == b;
    } else {
      assert (a + b)[1..] == a[1..] + b;
      SumAppend(a[1..], b);
    }
  }

  /** Blobs of at most `per` elements, cut in order. */
  method NewPlan(elements: nat, per: nat) returns (blobs: seq<nat>)
    requires per > 0
    ensures Positive(blobs) && Sum(blobs) == elements
    ensures forall i :: 0 <= i < |blobs| ==> blobs[i] <= per && (i < |blobs| - 1 ==> blobs[i] == per)
  {
    blobs := [];
    var left := elements;
    while left > 0
      invariant 0 <= left <= elements && Positive(blobs) && Sum(blobs) + left == elements
      invariant forall i :: 0 <= i < |blobs| ==> blobs[i] <= per && (i < |blobs| - 1 ==> blobs[i] == per)
      invariant left > 0 ==> forall i :: 0 <= i < |blobs| ==> blobs[i] == per
    {
      var take := Min(left, per);
      assert Sum([take]) == take;
      SumAppend(blobs, [take]);
      blobs := blobs + [take];
      left := left - take;
    }
  }

  /** `locate`: the search, `seen` elements past. */
  method LocateLoop(blobs: seq<nat>, index: nat) returns (r: Option<(nat, nat)>)
    ensures r == Locate(blobs, index)
  {
    var seen, b := 0, 0;
    while b < |blobs|
      invariant 0 <= b <= |blobs| && seen <= index
      invariant Locate(blobs, index) == match Locate(blobs[b..], index - seen)
                                        case Some((c, pos)) => Some((b + c, pos))
                                        case None => None
    {
      if index < seen + blobs[b] {
        return Some((b, index - seen));
      }
      assert blobs[b..][1..] == blobs[b + 1..];
      seen := seen + blobs[b];
      b := b + 1;
    }
    return None;
  }

  /** `locate` inverts the running sum: the element is `pos` places into blob `b`. */
  lemma {:induction false} LocateSpec(blobs: seq<nat>, index: nat)
    requires index < Sum(blobs)
    ensures Locate(blobs, index).Some?
    ensures var (b, pos) := Locate(blobs, index).value;
            b < |blobs| && pos < blobs[b] && Sum(blobs[..b]) + pos == index
  {
    if index >= blobs[0] {
      LocateSpec(blobs[1..], index - blobs[0]);
      var (b, pos) := Locate(blobs[1..], index - blobs[0]).value;
      assert blobs[..b + 1][1..] == blobs[1..][..b];
    }
  }

  function PeakStackEstimate(blobs: seq<nat>, workingFrame: nat): int
  {
    |blobs| - 1 + Largest(blobs) + workingFrame
  }

  /** For a plan cut at `per` elements: every blob but one, the elements of a whole blob, and the frame. */
  lemma PlanEstimate(blobs: seq<nat>, elements: nat, per: nat, frame: nat)
    requires 0 < per <= elements && Positive(blobs) && Sum(blobs) == elements
    requires forall i :: 0 <= i < |blobs| ==> blobs[i] <= per && (i < |blobs| - 1 ==> blobs[i] == per)
    ensures |blobs| == CeilDiv(elements, per) && PeakStackEstimate(blobs, frame) == CeilDiv(elements, per) - 1 + per + frame
  {
    PlanShape(blobs, per);
    CeilDivBounds(elements, per);
    hide CeilDiv, Sum, Largest;
    var n := |blobs| - 1;
    assert n * per < elements <= (n + 1) * per;
    Unrounded(elements, per, n);
  }

  lemma Unrounded(elements: nat, per: nat, n: nat)
    requires per > 0 && n * per < elements <= (n + 1) * per
    ensures CeilDiv(elements, per) == n + 1
  {
    DivUnique(elements + per - 1, per, n + 1, elements - 1 - n * per);
  }

  lemma OneBlob(blobs: seq<nat>)
    requires |blobs| == 1
    ensures Sum(blobs) == blobs[0] && Largest(blobs) == blobs[0]
  {
    assert blobs[1..] == [];
    assert Sum([]) == 0 && Largest([]) == 0;
  }

  lemma OneMore(n: nat, per: nat, sum: nat)
    requires n >= 1 && (n - 1) * per < sum <= n * per
    ensures n * per < per + sum <= (n + 1) * per
  {
  }

  lemma {:induction false} PlanShape(blobs: seq<nat>, per: nat)
    requires Positive(blobs) && Sum(blobs) >= per > 0
    requires forall i :: 0 <= i < |blobs| ==> blobs[i] <= per && (i < |blobs| - 1 ==> blobs[i] == per)
    ensures |blobs| > 0 && Largest(blobs) == per && (|blobs| - 1) * per < Sum(blobs) <= |blobs| * per
    decreases |blobs|
  {
    if |blobs| > 1 {
      var rest := blobs[1..];
      assert Positive(rest);
      if |rest| > 1 {
        assert rest[0] == per && Sum(rest) == rest[0] + Sum(rest[1..]);
        PlanShape(rest, per);
        OneMore(|rest|, per, Sum(rest));
      } else {
        OneBlob(rest);
      }
    } else {
      OneBlob(blobs);
    }
  }

  /** Every blob in consumption order, as the witness pushes them. */
  function WitnessBlobs(blobs: seq<nat>, sig: Bytes): seq<Bytes>
    requires |sig| == ELEM * Sum(blobs)
  {
    if |blobs| == 0 then []
    else [sig[..ELEM * blobs[0]]] + WitnessBlobs(blobs[1..], sig[ELEM * blobs[0]..])
  }

  /** `witness_pushes`: one push a blob; a wrong length is refused. */
  method WitnessPushes(blobs: seq<nat>, sigLen: nat, sig: Bytes) returns (r: Option<seq<Bytes>>)
    requires sigLen == ELEM * Sum(blobs)
    ensures r.Some? <==> |sig| == sigLen
    ensures r.Some? ==> r.value == WitnessBlobs(blobs, sig)
  {
    if |sig| != sigLen {
      return None;
    }
    var pushes: seq<Bytes> := [];
    var offset, i := 0, 0;
    assert blobs[0..] == blobs && sig[0..] == sig;
    while i < |blobs|
      invariant 0 <= i <= |blobs| && offset <= |sig| && |sig[offset..]| == ELEM * Sum(blobs[i..])
      invariant pushes + WitnessBlobs(blobs[i..], sig[offset..]) == WitnessBlobs(blobs, sig)
    {
      var bytes := ELEM * blobs[i];
      assert blobs[i..][0] == blobs[i] && blobs[i..][1..] == blobs[i + 1..];
      assert sig[offset..][..bytes] == sig[offset..offset + bytes];
      assert sig[offset..][bytes..] == sig[offset + bytes..];
      pushes := pushes + [sig[offset..offset + bytes]];
      offset := offset + bytes;
      i := i + 1;
    }
    assert WitnessBlobs(blobs[i..], sig[offset..]) == [];
    return Some(pushes);
  }

  /** The pushes reassemble the signature, byte for byte. */
  lemma {:induction false} WitnessReassembles(blobs: seq<nat>, sig: Bytes)
    requires |sig| == ELEM * Sum(blobs)
    ensures |WitnessBlobs(blobs, sig)| == |blobs|
    ensures Concat(WitnessBlobs(blobs, sig)) == sig
  {
    if |blobs| > 0 {
      var rest := sig[ELEM * blobs[0]..];
      WitnessReassembles(blobs[1..], rest);
      assert WitnessBlobs(blobs, sig)[1..] == WitnessBlobs(blobs[1..], rest);
      assert sig[..ELEM * blobs[0]] + rest == sig;
    }
  }

  // ---- the elements a blob is cut into -------------------------------------

  /** Element j of a blob of c elements. A single element is the whole blob; missing bytes stand for nothing. */
  function CutElem(c: nat, bytes: Bytes, j: nat): Bytes
  {
    if c == 1 then bytes else if (j + 1) * ELEM <= |bytes| then Chunk(bytes, j) else []
  }

  function CutBlob(c: nat, bytes: Bytes): (r: seq<Bytes>)
    ensures |r| == c && forall j :: 0 <= j < c ==> r[j] == CutElem(c, bytes, j)
  {
    seq(c, j requires 0 <= j => CutElem(c, bytes, j))
  }

  /** The elements any pushes are cut into, one push a blob. */
  function CutElems(blobs: seq<nat>, pushes: seq<Bytes>): (r: seq<Bytes>)
    requires |pushes| == |blobs|
    ensures |r| == Sum(blobs)
  {
    if |blobs| == 0 then [] else CutBlob(blobs[0], pushes[0]) + CutElems(blobs[1..], pushes[1..])
  }

  /** Slicing the push does not run past its end. */
  predicate Long(c: nat, bytes: Bytes) { c <= 1 || c * ELEM <= |bytes| }

  /** No blob that starts before element n is cut short. */
  predicate LongUpTo(blobs: seq<nat>, pushes: seq<Bytes>, n: nat)
    requires |pushes| == |blobs|
  {
    forall b: nat :: b < |blobs| && Sum(blobs[..b]) < n ==> Long(blobs[b], pushes[b])
  }

  predicate AllLong(blobs: seq<nat>, pushes: seq<Bytes>)
    requires |pushes| == |blobs|
  {
    forall b: nat :: b < |blobs| ==> Long(blobs[b], pushes[b])
  }

  /** All 16-byte elements of a byte string, in order. */
  function Chunks(x: Bytes, n: nat): (r: seq<Bytes>)
    requires n * ELEM <= |x|
    ensures |r| == n && forall j: nat :: j < n ==> r[j] == Chunk(x, j)
  {
    seq(n, j requires 0 <= j < n && n * ELEM <= |x| => Chunk(x, j))
  }

  lemma ChunkShift(x: Bytes, drop: nat, n: nat)
    requires ELEM * drop <= |x| && ELEM * (drop + n + 1) <= |x|
    ensures Chunk(x[ELEM * drop..], n) == Chunk(x, drop + n)
  {
  }

  /** Cutting the witness of a signature gives its elements, and no push is too short. */
  lemma {:induction false} WitnessCut(blobs: seq<nat>, sig: Bytes)
    requires |sig| == ELEM * Sum(blobs)
    ensures |WitnessBlobs(blobs, sig)| == |blobs| && AllLong(blobs, WitnessBlobs(blobs, sig))
    ensures CutElems(blobs, WitnessBlobs(blobs, sig)) == Chunks(sig, Sum(blobs))
  {
    WitnessReassembles(blobs, sig);
    if |blobs| > 0 {
      var c, rest := blobs[0], sig[ELEM * blobs[0]..];
      var w := WitnessBlobs(blobs, sig);
      WitnessCut(blobs[1..], rest);
      assert w == [sig[..ELEM * c]] + WitnessBlobs(blobs[1..], rest) && w[1..] == WitnessBlobs(blobs[1..], rest);
      FirstCut(c, sig);
      ChunksJoin(sig, c, Sum(blobs[1..]));
      hide WitnessBlobs, Chunks, CutElem;
      assert CutBlob(c, w[0]) == Chunks(sig, c);
      LongNext(blobs, w);
    }
  }

  lemma LongNext(blobs: seq<nat>, w: seq<Bytes>)
    requires |w| == |blobs| > 0 && Long(blobs[0], w[0]) && AllLong(blobs[1..], w[1..])
    ensures AllLong(blobs, w)
  {
    hide Long;
    forall b: nat | b < |blobs|
      ensures Long(blobs[b], w[b])
    {
      if b > 0 {
        assert w[1..][b - 1] == w[b] && blobs[1..][b - 1] == blobs[b];
      }
    }
  }

  lemma ChunksJoin(sig: Bytes, c: nat, n: nat)
    requires ELEM * (c + n) <= |sig|
    ensures Chunks(sig, c) + Chunks(sig[ELEM * c..], n) == Chunks(sig, c + n)
  {
    forall j: nat | j < n
      ensures Chunk(sig[ELEM * c..], j) == Chunk(sig, c + j)
    {
      ChunkShift(sig, c, j);
    }
  }

  lemma FirstCut(c: nat, sig: Bytes)
    requires c * ELEM <= |sig|
    ensures forall j: nat :: j < c ==> CutElem(c, sig[..ELEM * c], j) == Chunk(sig, j)
  {
    forall j: nat | j < c
      ensures CutElem(c, sig[..ELEM * c], j) == Chunk(sig, j)
    {
      if c > 1 {
        assert Chunk(sig[..ELEM * c], j) == Chunk(sig, j);
      }
    }
  }

  /** Pushes of exactly the planned sizes are the witness of what they concatenate to. */
  lemma {:induction false} PushesAreWitness(blobs: seq<nat>, pushes: seq<Bytes>)
    requires |pushes| == |blobs| && forall b: nat :: b < |blobs| ==> |pushes[b]| == ELEM * blobs[b]
    ensures |Concat(pushes)| == ELEM * Sum(blobs) && WitnessBlobs(blobs, Concat(pushes)) == pushes
  {
    if |blobs| > 0 {
      forall b: nat | b < |blobs[1..]|
        ensures |pushes[1..][b]| == ELEM * blobs[1..][b]
      {
        assert pushes[1..][b] == pushes[b + 1] && blobs[1..][b] == blobs[b + 1];
      }
      PushesAreWitness(blobs[1..], pushes[1..]);
      var x, rest := Concat(pushes), Concat(pushes[1..]);
      assert x == pushes[0] + rest;
      assert x[..ELEM * blobs[0]] == pushes[0] && x[ELEM * blobs[0]..] == rest;
    }
  }

  // ---- the queue -----------------------------------------------------------

  /** Untouched pushes, the next one on top. */
  function BlobStack(pushes: seq<Bytes>): (r: List<Val>)
    ensures Len(r) == |pushes|
  {
    if |pushes| == 0 then Nil else Cons(Blob(pushes[0]), BlobStack(pushes[1..]))
  }

  /** Elements from .. to of a list, the first on top of `rest`. */
  function ElemStack(xs: seq<Bytes>, from: nat, to: nat, rest: List<Val>): (r: List<Val>)
    requires from <= to <= |xs|
    ensures Len(r) + from == to + Len(rest)
    decreases |xs| - from
  {
    if from == to then rest else Cons(Blob(xs[from]), ElemStack(xs, from + 1, to, rest))
  }

  /** The alt stack once `el` elements have been fetched. */
  function QueueAlt(blobs: seq<nat>, pushes: seq<Bytes>, el: nat): List<Val>
    requires |pushes| == |blobs| && el <= Sum(blobs)
  {
    if |blobs| == 0 then Nil
    else if el == 0 then BlobStack(pushes)
    else if el >= blobs[0] then QueueAlt(blobs[1..], pushes[1..], el - blobs[0])
    else ElemStack(CutBlob(blobs[0], pushes[0]), el, blobs[0], BlobStack(pushes[1..]))
  }

  /** Sliced elements still on the alt stack once `el` have been fetched. */
  function Pending(blobs: seq<nat>, el: nat): nat
  {
    if |blobs| == 0 || el == 0 then 0
    else if el >= blobs[0] then Pending(blobs[1..], el - blobs[0])
    else blobs[0] - el
  }

  /** Nothing pending: the next blob starts exactly at `el`, and slicing it yields the element and the next queue. */
  lemma {:induction false} QueueRefill(blobs: seq<nat>, pushes: seq<Bytes>, el: nat) returns (b: nat, rest: List<Val>)
    requires |pushes| == |blobs| && el < Sum(blobs) && Positive(blobs) && Pending(blobs, el) == 0
    ensures Locate(blobs, el) == Some((b, 0)) && b < |blobs| && Sum(blobs[..b]) == el
    ensures var c := blobs[b];
            && 0 < c <= Largest(blobs) && Len(rest) <= |blobs| - 1
            && QueueAlt(blobs, pushes, el) == Cons(Blob(pushes[b]), rest)
            && ElemStack(CutBlob(c, pushes[b]), 0, c, rest)
               == Cons(Blob(CutElems(blobs, pushes)[el]), QueueAlt(blobs, pushes, el + 1))
            && c - 1 == Pending(blobs, el + 1)
  {
    if el == 0 {
      b, rest := 0, BlobStack(pushes[1..]);
      if blobs[0] == 1 {
        assert QueueAlt(blobs, pushes, 1) == QueueAlt(blobs[1..], pushes[1..], 0);
      }
    } else {
      var before: nat;
      before, rest := QueueRefill(blobs[1..], pushes[1..], el - blobs[0]);
      b := before + 1;
      assert blobs[..b] == [blobs[0]] + blobs[1..][..before];
      assert blobs[..b][1..] == blobs[1..][..before];
    }
  }

  /** Past the first blob, the queue is the queue of the rest. */
  lemma QueueRest(blobs: seq<nat>, pushes: seq<Bytes>, el: nat)
    requires |pushes| == |blobs| > 0 && 0 < blobs[0] <= el <= Sum(blobs)
    ensures QueueAlt(blobs, pushes, el) == QueueAlt(blobs[1..], pushes[1..], el - blobs[0])
    ensures Pending(blobs, el) == Pending(blobs[1..], el - blobs[0])
    ensures el < Sum(blobs) ==> CutElems(blobs, pushes)[el] == CutElems(blobs[1..], pushes[1..])[el - blobs[0]]
  {
    hide CutElem, CutBlob;
  }

  /** Elements pending: the next element is on top. */
  lemma {:induction false} QueuePending(blobs: seq<nat>, pushes: seq<Bytes>, el: nat)
    requires |pushes| == |blobs| && el < Sum(blobs) && Positive(blobs) && Pending(blobs, el) > 0
    ensures QueueAlt(blobs, pushes, el) == Cons(Blob(CutElems(blobs, pushes)[el]), QueueAlt(blobs, pushes, el + 1))
    ensures Pending(blobs, el + 1) == Pending(blobs, el) - 1
  {
    if el >= blobs[0] {
      QueueRest(blobs, pushes, el);
      QueueRest(blobs, pushes, el + 1);
      hide QueueAlt, CutElems, Pending;
      QueuePending(blobs[1..], pushes[1..], el - blobs[0]);
    } else {
      FirstPending(blobs, pushes, el);
    }
  }

  lemma FirstPending(blobs: seq<nat>, pushes: seq<Bytes>, el: nat)
    requires |pushes| == |blobs| > 0 && 0 < el < blobs[0]
    ensures el + 1 <= Sum(blobs) && Pending(blobs, el) == blobs[0] - el && Pending(blobs, el + 1) == blobs[0] - el - 1
    ensures QueueAlt(blobs, pushes, el) == Cons(Blob(CutElems(blobs, pushes)[el]), QueueAlt(blobs, pushes, el + 1))
  {
    hide CutElem;
    var rest, xs := BlobStack(pushes[1..]), CutBlob(blobs[0], pushes[0]);
    assert ElemStack(xs, el, blobs[0], rest) == Cons(Blob(xs[el]), ElemStack(xs, el + 1, blobs[0], rest));
    if el + 1 == blobs[0] {
      assert QueueAlt(blobs[1..], pushes[1..], 0) == rest;
    }
  }

  /** The queue never holds more than the untouched blobs but one plus one blob's elements. */
  lemma {:induction false} QueueBound(blobs: seq<nat>, pushes: seq<Bytes>, el: nat)
    requires |pushes| == |blobs| && el <= Sum(blobs) && |blobs| > 0 && Positive(blobs)
    ensures Len(QueueAlt(blobs, pushes, el)) <= |blobs| - 1 + Largest(blobs)
  {
    assert Largest(blobs) >= blobs[0] > 0;
    if el >= blobs[0] && |blobs| > 1 {
      QueueBound(blobs[1..], pushes[1..], el - blobs[0]);
    }
  }

  /** When every element has been fetched the queue is empty and nothing is pending. */
  lemma {:induction false} QueueEnd(blobs: seq<nat>, pushes: seq<Bytes>)
    requires |pushes| == |blobs| && Positive(blobs)
    ensures QueueAlt(blobs, pushes, Sum(blobs)) == Nil && Pending(blobs, Sum(blobs)) == 0
  {
    if |blobs| > 0 {
      QueueEnd(blobs[1..], pushes[1..]);
      if Sum(blobs) > 0 {
        assert Sum(blobs) >= blobs[0];
      }
    }
  }
}
