/** The chunk-claiming parallel map, under any schedule of claims. */
module ParallelMap {
  import opened Arith
  import opened Bytes
  import opened Params
  import opened Signing
  import opened KeyHashing

  const CHUNK: nat := 64

  /** One claimed range and its results. */
  datatype Part = Part(start: nat, values: seq<Bytes>)

  function Serial(count: nat, f: nat -> Bytes): (r: seq<Bytes>)
    ensures |r| == count && forall i :: 0 <= i < count ==> r[i] == f(i)
  {
    seq(count, i requires 0 <= i => f(i))
  }

  /** The range a claim at `start` covers. */
  function RangeEnd(start: nat, count: nat): nat { Min(start + CHUNK, count) }

  predicate PartOk(part: Part, count: nat, f: nat -> Bytes)
  {
    && part.start < count && |part.values| == RangeEnd(part.start, count) - part.start
    && forall j :: 0 <= j < |part.values| ==> part.values[j] == f(part.start + j)
  }

  /**
   * `at[c]` says which worker holds chunk c and where: every chunk below `|at|` is held exactly once, and nothing else is
   * held.
   */
  ghost predicate Owned(parts: seq<seq<Part>>, at: seq<(nat, nat)>, count: nat, f: nat -> Bytes)
  {
    && (forall c: nat :: c < |at| ==>
          at[c].0 < |parts| && at[c].1 < |parts[at[c].0]| && parts[at[c].0][at[c].1].start == c * CHUNK)
    && (forall t: nat, k: nat :: t < |parts| && k < |parts[t]| ==>
          PartOk(parts[t][k], count, f) && Holder(parts[t][k].start, t, k, at))
  }

  /** Every chunk of the range is held by exactly one worker, with its own values. */
  ghost predicate AllClaimedOnce(parts: seq<seq<Part>>, count: nat, f: nat -> Bytes)
  {
    exists at :: Owned(parts, at, count, f) && |at| == CeilDiv(count, CHUNK)
  }

  predicate Holder(start: nat, t: nat, k: nat, at: seq<(nat, nat)>)
  {
    start % CHUNK == 0 && start / CHUNK < |at| && at[start / CHUNK] == (t, k)
  }

  /** How many chunks a counter has handed out. */
  function Handed(next: nat, count: nat): nat { Min(next / CHUNK, CeilDiv(count, CHUNK)) }

  /** Chunks still to hand out below `count`. */
  lemma NextChunk(next: nat, count: nat)
    requires next % CHUNK == 0
    ensures next < count ==> Handed(next, count) == next / CHUNK && Handed(next + CHUNK, count) == next / CHUNK + 1
    ensures next >= count ==> Handed(next, count) == CeilDiv(count, CHUNK) == Handed(next + CHUNK, count)
  {
    CeilDivBounds(count, CHUNK);
  }

  /** The closure being mapped, as what it captures: the leaves of one tree, or any function. */
  datatype MapFn = LeafKeys(key: Hasher, layer: nat, tree: nat) | AnyFunction(g: nat -> Bytes)
  {
    /** What it computes. */
    ghost function Value(): nat -> Bytes
    {
      match this
      case LeafKeys(key, layer, tree) => XmssLeaf(key.hash, key.p, key.seeds, layer, tree)
      case AnyFunction(g) => g
    }

    /** Its addresses have room for `count` indices. */
    ghost predicate Fits(count: nat)
    {
      match this
      case LeafKeys(key, layer, tree) => key.Valid() && layer < 256 && tree < Pow2(64) && count <= Pow2(32)
      case AnyFunction(_) => true
    }

    /** Call it. */
    method At(count: nat, i: nat) returns (x: Bytes)
      requires Fits(count) && i < count
      ensures x == Value()(i)
    {
      match this
      case LeafKeys(key, layer, tree) =>
        hide WotsPkGen, Pow2, Hasher.Valid;
        x := key.WotsPkGenLoop(layer, tree, i);
      case AnyFunction(g) => x := g(i);
    }
  }

  method MapRange(count: nat, start: nat, end: nat, c: MapFn) returns (values: seq<Bytes>)
    requires c.Fits(count) && start <= end <= count
    ensures |values| == end - start && forall j :: 0 <= j < |values| ==> values[j] == c.Value()(start + j)
  {
    hide MapFn.Fits, MapFn.Value;
    values := [];
    for i := start to end
      invariant |values| == i - start && forall j :: 0 <= j < |values| ==> values[j] == c.Value()(start + j)
    {
      var x := c.At(count, i);
      values := values + [x];
    }
  }

  lemma OwnedGrows(parts: seq<seq<Part>>, at: seq<(nat, nat)>, count: nat, f: nat -> Bytes, t: nat, part: Part)
    requires Owned(parts, at, count, f) && t < |parts| && PartOk(part, count, f) && part.start == |at| * CHUNK
    ensures Owned(parts[t := parts[t] + [part]], at + [(t, |parts[t]|)], count, f)
  {
    hide PartOk;
    var grown := parts[t := parts[t] + [part]];
    var now := at + [(t, |parts[t]|)];
    DivUnique(part.start, CHUNK, |at|, 0);
    forall u: nat, k: nat | u < |grown| && k < |grown[u]|
      ensures PartOk(grown[u][k], count, f) && Holder(grown[u][k].start, u, k, now)
    {
      if u == t && k == |parts[t]| {
        assert grown[u][k] == part;
      } else {
        assert grown[u][k] == parts[u][k];
        assert Holder(parts[u][k].start, u, k, at);
      }
    }
  }

  /** The shared counter, who has stopped, and what has been claimed so far. */
  ghost predicate Running(count: nat, f: nat -> Bytes, threads: nat, parts: seq<seq<Part>>, finished: seq<bool>, next: nat,
                          at: seq<(nat, nat)>)
  {
    && |parts| == |finished| == threads && next % CHUNK == 0
    && Owned(parts, at, count, f) && |at| == Handed(next, count)
    && forall u: nat :: u < threads && finished[u] ==> next >= count
  }

  /** One atomic claim by worker t, and the work that follows it. */
  method Claim(count: nat, c: MapFn, threads: nat, parts0: seq<seq<Part>>, finished0: seq<bool>, next0: nat, t: nat,
               ghost at0: seq<(nat, nat)>)
    returns (parts: seq<seq<Part>>, finished: seq<bool>, next: nat, ghost at: seq<(nat, nat)>)
    requires c.Fits(count) && Running(count, c.Value(), threads, parts0, finished0, next0, at0)
    requires t < threads && !finished0[t]
    ensures Running(count, c.Value(), threads, parts, finished, next, at) && next == next0 + CHUNK
    ensures finished == finished0[t := next0 >= count]
  {
    hide PartOk, Holder, Handed, MapFn.Fits, MapFn.Value;
    NextChunk(next0, count);
    var start := next0;
    next := next0 + CHUNK;
    finished := finished0[t := start >= count];
    if start >= count {
      parts, at := parts0, at0;
    } else {
      var end := RangeEnd(start, count);
      var values := MapRange(count, start, end, c);
      PartMade(start, values, count, c.Value());
      OwnedGrows(parts0, at0, count, c.Value(), t, Part(start, values));
      parts := parts0[t := parts0[t] + [Part(start, values)]];
      at := at0 + [(t, |parts0[t]|)];
    }
  }

  lemma PartMade(start: nat, values: seq<Bytes>, count: nat, f: nat -> Bytes)
    requires start < count && |values| == RangeEnd(start, count) - start
    requires forall j :: 0 <= j < |values| ==> values[j] == f(start + j)
    ensures PartOk(Part(start, values), count, f)
  {
  }

  /**
   * All workers to completion. `schedule` lists the workers in the order their claims happen; whoever is left then
   * finishes in turn. Any interleaving of the claims is some schedule.
   */
  method RunWorkers(count: nat, c: MapFn, threads: nat, schedule: seq<nat>)
    returns (parts: seq<seq<Part>>)
    requires threads > 0 && c.Fits(count)
    ensures AllClaimedOnce(parts, count, c.Value())
  {
    hide Running, Owned, CeilDiv, MapFn.Fits, MapFn.Value;
    ghost var f := c.Value();
    var finished := seq(threads, _ => false);
    var next := 0;
    parts := seq(threads, _ => []);
    ghost var at: seq<(nat, nat)> := [];
    NoneRunning(count, f, threads, parts, finished);
    var i := 0;
    while i < |schedule|
      invariant 0 <= i <= |schedule| && |finished| == threads && 0 <= next
      invariant Running(count, f, threads, parts, finished, next, at)
    {
      var t := schedule[i] % threads;
      if !finished[t] {
        parts, finished, next, at := Claim(count, c, threads, parts, finished, next, t, at);
      }
      i := i + 1;
    }
    var t := 0;
    while t < threads
      invariant 0 <= t <= threads && |finished| == threads && 0 <= next
      invariant Running(count, f, threads, parts, finished, next, at)
      invariant forall u: nat :: u < t ==> finished[u]
    {
      while !finished[t]
        invariant |finished| == threads && 0 <= next
        invariant Running(count, f, threads, parts, finished, next, at)
        invariant forall u: nat :: u < t ==> finished[u]
        decreases Max(0, count + CHUNK - next), if finished[t] then 0 else 1
      {
        parts, finished, next, at := Claim(count, c, threads, parts, finished, next, t, at);
      }
      t := t + 1;
    }
    AllHanded(count, f, threads, parts, finished, next, at);
  }

  lemma AllHanded(count: nat, f: nat -> Bytes, threads: nat, parts: seq<seq<Part>>, finished: seq<bool>, next: nat,
                  at: seq<(nat, nat)>)
    requires Running(count, f, threads, parts, finished, next, at) && threads > 0 && finished[0]
    ensures Owned(parts, at, count, f) && |at| == CeilDiv(count, CHUNK)
  {
    hide Owned, CeilDiv;
    NextChunk(next, count);
  }

  lemma NoneRunning(count: nat, f: nat -> Bytes, threads: nat, parts: seq<seq<Part>>, finished: seq<bool>)
    requires |parts| == |finished| == threads
    requires forall t: nat :: t < threads ==> parts[t] == [] && !finished[t]
    ensures Running(count, f, threads, parts, finished, 0, [])
  {
    NoneHanded(count);
  }

  lemma NoneHanded(count: nat)
    ensures Handed(0, count) == 0
  {
  }

  /** Which writes are over once worker t has been copied up to part k: its chunks and those of the workers before it. */
  predicate Before(place: (nat, nat), t: nat, k: nat)
  {
    place.0 < t || (place.0 == t && place.1 < k)
  }

  /** Output and write counts while the parts are copied out. */
  ghost predicate Copied(out: seq<Bytes>, writes: seq<nat>, at: seq<(nat, nat)>, count: nat, f: nat -> Bytes, t: nat, k: nat)
  {
    && |out| == |writes| == count && |at| == CeilDiv(count, CHUNK)
    && forall i: nat :: i < count ==> CopiedAt(out[i], writes[i], at, i, f, t, k)
  }

  ghost predicate CopiedAt(value: Bytes, writes: nat, at: seq<(nat, nat)>, i: nat, f: nat -> Bytes, t: nat, k: nat)
  {
    i / CHUNK < |at|
    && writes == (if Before(at[i / CHUNK], t, k) then 1 else 0)
    && (Before(at[i / CHUNK], t, k) ==> value == f(i))
  }

  lemma ChunkOf(i: nat, start: nat, count: nat)
    requires start % CHUNK == 0 && start < count && i < count
    ensures start <= i < RangeEnd(start, count) <==> i / CHUNK == start / CHUNK
    ensures i / CHUNK < CeilDiv(count, CHUNK)
  {
    CeilDivBounds(count, CHUNK);
  }

  /** Copying part (t, k) writes its own chunk, once. */
  lemma CopyStep(parts: seq<seq<Part>>, at: seq<(nat, nat)>, count: nat, f: nat -> Bytes, t: nat, k: nat,
                 out: seq<Bytes>, writes: seq<nat>, out': seq<Bytes>, writes': seq<nat>)
    requires Owned(parts, at, count, f) && t < |parts| && k < |parts[t]|
    requires Copied(out, writes, at, count, f, t, k) && |out'| == |writes'| == count
    requires var part := parts[t][k];
             forall i: nat :: i < count ==>
               if part.start <= i < part.start + |part.values|
               then out'[i] == part.values[i - part.start] && writes'[i] == writes[i] + 1
               else out'[i] == out[i] && writes'[i] == writes[i]
    ensures Copied(out', writes', at, count, f, t, k + 1)
  {
    hide CeilDiv;
    var part := parts[t][k];
    assert PartOk(part, count, f) && Holder(part.start, t, k, at);
    forall i: nat | i < count
      ensures CopiedAt(out'[i], writes'[i], at, i, f, t, k + 1)
    {
      ChunkOf(i, part.start, count);
      assert CopiedAt(out[i], writes[i], at, i, f, t, k);
      var c := i / CHUNK;
      if at[c] == (t, k) {
        assert parts[at[c].0][at[c].1].start == c * CHUNK;
        DivUnique(part.start, CHUNK, c, 0);
      }
    }
  }

  /** Copy one part into place. */
  method CopyPart(a: array<Bytes>, part: Part, ghost writes: seq<nat>) returns (ghost writes': seq<nat>)
    requires part.start + |part.values| <= a.Length == |writes|
    modifies a
    ensures |writes'| == a.Length
    ensures forall i: nat :: i < a.Length ==>
              if part.start <= i < part.start + |part.values|
              then a[i] == part.values[i - part.start] && writes'[i] == writes[i] + 1
              else a[i] == old(a[i]) && writes'[i] == writes[i]
  {
    writes' := writes;
    var j := 0;
    while j < |part.values|
      invariant 0 <= j <= |part.values| && |writes'| == a.Length
      invariant forall i: nat :: i < a.Length ==>
                  if part.start <= i < part.start + j
                  then a[i] == part.values[i - part.start] && writes'[i] == writes[i] + 1
                  else a[i] == old(a[i]) && writes'[i] == writes[i]
    {
      a[part.start + j] := part.values[j];
      writes' := writes'[part.start + j := writes'[part.start + j] + 1];
      j := j + 1;
    }
  }

  /** Assemble the results: every index is written exactly once, with its own value. */
  method Collect(parts: seq<seq<Part>>, count: nat, ghost f: nat -> Bytes) returns (out: seq<Bytes>, ghost writes: seq<nat>)
    requires AllClaimedOnce(parts, count, f)
    ensures out == Serial(count, f)
    ensures |writes| == count && forall i :: 0 <= i < count ==> writes[i] == 1
  {
    hide CeilDiv, Owned, Copied;
    ghost var at :| Owned(parts, at, count, f) && |at| == CeilDiv(count, CHUNK);
    var a := new Bytes[count](_ => Zeros(N));
    writes := seq(count, _ => 0);
    CopyStart(a[..], writes, at, count, f);
    var t := 0;
    while t < |parts|
      invariant 0 <= t <= |parts| && |writes| == count
      invariant Copied(a[..], writes, at, count, f, t, 0)
    {
      var k := 0;
      while k < |parts[t]|
        invariant 0 <= k <= |parts[t]| && |writes| == count
        invariant Copied(a[..], writes, at, count, f, t, k)
      {
        PartFits(parts, at, count, f, t, k);
        ghost var was, wrote := a[..], writes;
        writes := CopyPart(a, parts[t][k], writes);
        CopyStep(parts, at, count, f, t, k, was, wrote, a[..], writes);
        k := k + 1;
      }
      NextWorker(parts, a[..], writes, at, count, f, t);
      t := t + 1;
    }
    AllCopied(parts, a[..], writes, at, count, f);
    out := a[..];
  }

  lemma CopyStart(out: seq<Bytes>, writes: seq<nat>, at: seq<(nat, nat)>, count: nat, f: nat -> Bytes)
    requires |out| == |writes| == count && |at| == CeilDiv(count, CHUNK) && forall i :: 0 <= i < count ==> writes[i] == 0
    ensures Copied(out, writes, at, count, f, 0, 0)
  {
    forall i: nat | i < count
      ensures CopiedAt(out[i], writes[i], at, i, f, 0, 0)
    {
      ChunkOf(i, 0, count);
    }
  }

  lemma PartFits(parts: seq<seq<Part>>, at: seq<(nat, nat)>, count: nat, f: nat -> Bytes, t: nat, k: nat)
    requires Owned(parts, at, count, f) && t < |parts| && k < |parts[t]|
    ensures parts[t][k].start + |parts[t][k].values| <= count
  {
    assert PartOk(parts[t][k], count, f);
  }

  lemma NextWorker(parts: seq<seq<Part>>, out: seq<Bytes>, writes: seq<nat>, at: seq<(nat, nat)>, count: nat,
                   f: nat -> Bytes, t: nat)
    requires Owned(parts, at, count, f) && t < |parts| && Copied(out, writes, at, count, f, t, |parts[t]|)
    ensures Copied(out, writes, at, count, f, t + 1, 0)
  {
    hide CeilDiv, PartOk, Holder;
    forall i: nat | i < count
      ensures CopiedAt(out[i], writes[i], at, i, f, t + 1, 0)
    {
      assert CopiedAt(out[i], writes[i], at, i, f, t, |parts[t]|);
    }
  }

  lemma AllCopied(parts: seq<seq<Part>>, out: seq<Bytes>, writes: seq<nat>, at: seq<(nat, nat)>, count: nat, f: nat -> Bytes)
    requires Owned(parts, at, count, f) && Copied(out, writes, at, count, f, |parts|, 0)
    ensures out == Serial(count, f) && |writes| == count && forall i :: 0 <= i < count ==> writes[i] == 1
  {
    hide CeilDiv, PartOk, Holder;
    forall i: nat | i < count
      ensures out[i] == f(i) && writes[i] == 1
    {
      assert CopiedAt(out[i], writes[i], at, i, f, |parts|, 0);
    }
  }

  /** `parallel_map`: for any number of cores and any schedule of claims, the serial map. */
  method Map(count: nat, c: MapFn, cores: nat, schedule: seq<nat>) returns (out: seq<Bytes>)
    requires c.Fits(count)
    ensures out == Serial(count, c.Value())
  {
    hide MapFn.Fits, MapFn.Value;
    var threads := Min(cores, Max(count, 1));
    if threads <= 1 || count < 1024 {
      out := MapRange(count, 0, count, c);
      return;
    }
    var parts := RunWorkers(count, c, threads, schedule);
    ghost var writes: seq<nat>;
    out, writes := Collect(parts, count, c.Value());
  }
}
