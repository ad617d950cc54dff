/** The address as its 22 bytes, overwritten in place. */
module AdrsBytes {
  import opened Arith
  import opened Bytes
  import opened Machine
  import opened Params
  import opened Adrs

  class AddressBytes {
    const bytes: array<Byte>
    /** The address the bytes spell. */
    ghost var addr: Addr

    ghost predicate Valid()
      reads this, bytes
    {
      bytes.Length == ADRS_LEN && addr.InBounds() && bytes[..] == Encode(addr)
    }

    constructor ()
      ensures Valid() && fresh(bytes)
      ensures addr == Addr(0, 0, 0, 0, 0, 0)
    {
      bytes := new Byte[ADRS_LEN](_ => 0);
      addr := Addr(0, 0, 0, 0, 0, 0);
      new;
      Bounds32();
      EncodeZero();
      hide Encode, Pow2;
      assert bytes[..] == Zeros(ADRS_LEN);
    }

    /** A copy, as passing the address by value makes one. */
    constructor Copy(other: AddressBytes)
      requires other.Valid()
      ensures Valid() && fresh(bytes) && addr == other.addr
    {
      var source := other.bytes;
      bytes := new Byte[ADRS_LEN](i requires 0 <= i < source.Length reads source => source[i]);
      addr := other.addr;
      new;
      assert bytes[..] == other.bytes[..];
    }

    /** Overwrite a range. */
    method Write(offset: nat, value: Bytes)
      requires offset + |value| <= bytes.Length
      modifies bytes
      ensures bytes[..] == old(bytes[..offset]) + value + old(bytes[offset + |value|..])
    {
      var i := 0;
      while i < |value|
        invariant 0 <= i <= |value|
        invariant forall j :: 0 <= j < bytes.Length ==>
                    bytes[j] == if offset <= j < offset + i then value[j - offset] else old(bytes[j])
      {
        bytes[offset + i] := value[i];
        i := i + 1;
      }
    }

    /** The low byte of the layer. */
    method SetLayer(layer: nat)
      requires Valid()
      modifies this, bytes
      ensures Valid() && addr == old(addr).(layer := layer % 256)
    {
      hide Pow2, ToBe;
      bytes[0] := layer % 256;
      ghost var was := addr;
      addr := was.(layer := layer % 256);
      ChangeLayer(was, layer % 256);
      assert bytes[..] == Encode(was)[0 := layer % 256];
    }

    method SetTreeAddress(tree: nat)
      requires Valid() && tree < Pow2(64)
      modifies this, bytes
      ensures Valid() && addr == old(addr).(tree := tree)
    {
      hide Addr.InBounds;
      ghost var was := addr;
      Write(1, ToBe(tree, 8));
      addr := was.(tree := tree);
      ChangeTree(was, tree);
    }

    /** Sets the type and zeroes all three words: the two are not separable. */
    method SetTypeAndClear(ty: nat)
      requires Valid() && ty < 256
      modifies this, bytes
      ensures Valid() && addr == Addr(old(addr).layer, old(addr).tree, ty, 0, 0, 0)
    {
      ghost var was := addr;
      bytes[9] := ty % 256;
      Write(10, Zeros(12));
      addr := Addr(was.layer, was.tree, ty, 0, 0, 0);
      ClearWords(was, ty);
      Bounds32();
    }

    method SetWord(index: nat, value: nat)
      requires Valid() && 1 <= index <= 3 && value < Pow2(32)
      modifies this, bytes
      ensures Valid()
      ensures addr == match index case 1 => old(addr).(w1 := value)
                                  case 2 => old(addr).(w2 := value)
                                  case _ => old(addr).(w3 := value)
    {
      hide Addr.InBounds;
      ghost var was := addr;
      Write(10 + 4 * (index - 1), ToBe(value, 4));
      addr := match index case 1 => was.(w1 := value) case 2 => was.(w2 := value) case _ => was.(w3 := value);
      ChangeWord(was, index, value);
    }

    function Word(index: nat): (r: nat)
      requires Valid() && 1 <= index <= 3
      reads this, bytes
      ensures r == match index case 1 => addr.w1 case 2 => addr.w2 case _ => addr.w3
      ensures r < Pow2(32)
    {
      WordAt(addr, index);
      var off := 10 + 4 * (index - 1);
      Be(bytes[off..off + 4])
    }

    method SetKeyPairAddress(kp: nat)
      requires Valid() && kp < Pow2(32)
      modifies this, bytes
      ensures Valid() && addr == old(addr).(w1 := kp)
    {
      SetWord(1, kp);
    }

    method SetChainAddress(i: nat)
      requires Valid() && i < Pow2(32)
      modifies this, bytes
      ensures Valid() && addr == old(addr).(w2 := i)
    {
      SetWord(2, i);
    }

    method SetHashAddress(j: nat)
      requires Valid() && j < Pow2(32)
      modifies this, bytes
      ensures Valid() && addr == old(addr).(w3 := j)
    {
      SetWord(3, j);
    }

    method SetTreeHeight(z: nat)
      requires Valid() && z < Pow2(32)
      modifies this, bytes
      ensures Valid() && addr == old(addr).(w2 := z)
    {
      SetWord(2, z);
    }

    method SetTreeIndex(i: nat)
      requires Valid() && i < Pow2(32)
      modifies this, bytes
      ensures Valid() && addr == old(addr).(w3 := i)
    {
      SetWord(3, i);
    }

    /** `adrs::hash`: the padded key seed, the address bytes, then every part. */
    method HashParts(hash: Hash, seed: Bytes, parts: seq<Bytes>) returns (r: Bytes)
      requires Valid()
      ensures r == AHash(hash, seed, addr, Concat(parts))
      ensures |seed| == 16 ==>
                exists x :: Laid(x, seed, addr.layer, addr.tree, addr.ty, addr.w1, addr.w2, addr.w3, Concat(parts))
                            && r == hash(x)[..16]
    {
      var buffer := HashPad(seed) + bytes[..];
      ghost var head := buffer;
      var i := 0;
      while i < |parts|
        invariant 0 <= i <= |parts|
        invariant buffer + Concat(parts[i..]) == head + Concat(parts)
      {
        ghost var rest := parts[i..];
        assert rest[0] == parts[i] && rest[1..] == parts[i + 1..];
        assert buffer + parts[i] + Concat(parts[i + 1..]) == buffer + Concat(rest);
        buffer := buffer + parts[i];
        i := i + 1;
      }
      assert parts[i..] == [] && buffer + [] == buffer;
      r := hash(buffer)[..N];
      if |seed| == 16 {
        var x := HashedBytes(hash, seed, addr, Concat(parts));
      }
    }
  }

  lemma EncodeZero()
    ensures Encode(Addr(0, 0, 0, 0, 0, 0)) == Zeros(ADRS_LEN)
  {
    ToBeZero(8);
    ToBeZero(4);
    hide ToBe;
  }

  lemma Bounds32()
    ensures Pow2(32) > 0x8000_0000 && Pow2(64) > 0
  {
    Pow2Table();
    Pow2Strict(31, 32);
  }

  lemma ChangeLayer(a: Addr, layer: nat)
    ensures Encode(a.(layer := layer)) == Encode(a)[0 := layer % 256]
  {
  }

  lemma ChangeTree(a: Addr, tree: nat)
    requires a.InBounds() && tree < Pow2(64)
    ensures Encode(a.(tree := tree)) == Encode(a)[..1] + ToBe(tree, 8) + Encode(a)[9..]
    ensures a.(tree := tree).InBounds()
  {
    hide Pow2, ToBe;
  }

  lemma ClearWords(a: Addr, ty: nat)
    ensures Encode(Addr(a.layer, a.tree, ty, 0, 0, 0)) == Encode(a)[..9] + [ty % 256] + Zeros(12)
  {
    ToBeZero(4);
  }

  lemma ChangeWord(a: Addr, index: nat, value: nat)
    requires a.InBounds() && 1 <= index <= 3 && value < Pow2(32)
    ensures var b := match index case 1 => a.(w1 := value) case 2 => a.(w2 := value) case _ => a.(w3 := value);
            var off := 10 + 4 * (index - 1);
            b.InBounds() && Encode(b) == Encode(a)[..off] + ToBe(value, 4) + Encode(a)[off + 4..]
  {
    hide Pow2, ToBe;
    var head := [a.layer % 256] + ToBe(a.tree, 8) + [a.ty % 256];
    Spliced(head, ToBe(a.w1, 4), ToBe(a.w2, 4), ToBe(a.w3, 4), ToBe(value, 4));
  }

  /** Replacing one of three words behind a head. */
  lemma Spliced(head: Bytes, x: Bytes, y: Bytes, z: Bytes, w: Bytes)
    requires |head| == 10 && |x| == 4 && |y| == 4 && |z| == 4 && |w| == 4
    ensures var all := head + x + y + z;
            && head + w + y + z == all[..10] + w + all[14..]
            && head + x + w + z == all[..14] + w + all[18..]
            && head + x + y + w == all[..18] + w + all[22..]
  {
  }

  lemma WordAt(a: Addr, index: nat)
    requires a.InBounds() && 1 <= index <= 3
    ensures var off := 10 + 4 * (index - 1);
            Be(Encode(a)[off..off + 4]) == match index case 1 => a.w1 case 2 => a.w2 case _ => a.w3
  {
    hide Pow2;
    var e := Encode(a);
    assert e[10..14] == ToBe(a.w1, 4) && e[14..18] == ToBe(a.w2, 4) && e[18..22] == ToBe(a.w3, 4);
    BeToBe(a.w1, 4);
    BeToBe(a.w2, 4);
    BeToBe(a.w3, 4);
  }
}
