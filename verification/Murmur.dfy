// murmurhash2 of libfiu/hash.c, in 32-bit words.
module Murmur {
  import opened Words

  // What C leaves to the platform: the byte order of a 32-bit load and the signedness of char.
  datatype Platform = Platform(littleEndian: bool, signedChar: bool)

  function Pack(b0: bv8, b1: bv8, b2: bv8, b3: bv8): bv32 {
    (b0 as bv32) | ((b1 as bv32) << 8) | ((b2 as bv32) << 16) | ((b3 as bv32) << 24)
  }

  function Word(p: Platform, b0: bv8, b1: bv8, b2: bv8, b3: bv8): bv32 {
    if p.littleEndian then Pack(b0, b1, b2, b3) else Pack(b3, b2, b1, b0)
  }

  // A char promoted to 32 bits.
  function Promote(p: Platform, b: bv8): bv32 {
    if p.signedChar && b >= 0x80 then (b as bv32) | 0xffffff00 else b as bv32
  }

  function MixKey(k: bv32): bv32 {
    Mul(Fold(Mul(k), By24))
  }

  function MixBlock(h: bv32, k: bv32): bv32 {
    Xor(Mul(h), MixKey(k))
  }

  function FirstWord(p: Platform, key: seq<bv8>): bv32
    requires |key| >= 4
  {
    Word(p, key[0], key[1], key[2], key[3])
  }

  function Blocks(p: Platform, h: bv32, key: seq<bv8>): bv32
    decreases |key|
  {
    if |key| < 4 then h else Blocks(p, MixBlock(h, FirstWord(p, key)), key[4..])
  }

  // The bytes after the last whole block.
  function Rest(key: seq<bv8>): (r: seq<bv8>)
    ensures |r| == |key| % 4
  {
    key[|key| - |key| % 4..]
  }

  function TailBits(p: Platform, t: seq<bv8>): bv32
    requires 0 < |t| < 4
  {
    if |t| == 1 then Promote(p, t[0])
    else if |t| == 2 then Join2(Promote(p, t[1]), Promote(p, t[0]))
    else Join3(Promote(p, t[2]), Promote(p, t[1]), Promote(p, t[0]))
  }

  function MixTail(p: Platform, h: bv32, t: seq<bv8>): bv32
    requires |t| < 4
  {
    if t == [] then h else Mul(Xor(h, TailBits(p, t)))
  }

  function Finish(h: bv32): bv32 {
    Fold(Mul(Fold(h, By13)), By15)
  }

  // The length as a 32-bit word: counting up wraps around at 2^32.
  function LengthWord(len: nat): bv32 {
    if len == 0 then 0 else LengthWord(len - 1) + 1
  }

  // `seed ^ len`.
  function Start(len: nat): bv32 {
    0x34a4b627 ^ LengthWord(len)
  }

  function Hash(p: Platform, key: seq<bv8>): bv32 {
    Finish(MixTail(p, Blocks(p, Start(|key|), key), Rest(key)))
  }

  // The hashes of some short keys: the empty one, "a", "ab", "abc", "abcd", "abcde", and two with bytes
  // above 0x7f, which the platform's char and byte order tell apart.
  lemma KnownHashes(p: Platform)
    ensures Hash(p, []) == 0x1d02d82f
    ensures Hash(p, [0x61]) == 0x3ef2878
    ensures Hash(p, [0x61, 0x62]) == 0xafc9a7ba
    ensures Hash(p, [0x61, 0x62, 0x63]) == 0xf5756ade
    ensures Hash(p, [0x61, 0x62, 0x63, 0x64]) == if p.littleEndian then 0xad11808e else 0x1f4364f4
    ensures Hash(p, [0x61, 0x62, 0x63, 0x64, 0x65]) == if p.littleEndian then 0x7d27f55b else 0x62862afe
    ensures Hash(p, [0x80]) == if p.signedChar then 0x627d9d0f else 0x26d77d17
    ensures Hash(p, [0x61, 0x80, 0x81]) == if p.signedChar then 0x77724a3f else 0x58e52209
  {
    hide Hash, Blocks, MixBlock, TailBits, Finish, Start, Mul, Xor;
    StartWords();
    MixedWords();
    FinishedWords();
    TailWords(p);
    ShortKey(p, [], 0);
    ShortKey(p, [0x61], 0x61);
    ShortKey(p, [0x61, 0x62], 0x6261);
    ShortKey(p, [0x61, 0x62, 0x63], 0x636261);
    ShortKey(p, [0x80], if p.signedChar then 0xffffff80 else 0x80);
    ShortKey(p, [0x61, 0x80, 0x81], if p.signedChar then 0x7e8061 else 0x818061);
    OneBlock(p, []);
    OneBlock(p, [0x65]);
    var block: seq<bv8> := [0x61, 0x62, 0x63, 0x64];
    assert block + [] == block && block + [0x65] == [0x61, 0x62, 0x63, 0x64, 0x65];
  }

  lemma StartWords()
    ensures Start(0) == 0x34a4b627 && Start(1) == 0x34a4b626 && Start(2) == 0x34a4b625
    ensures Start(3) == 0x34a4b624 && Start(4) == 0x34a4b623 && Start(5) == 0x34a4b622
  {
    assert LengthWord(2) == 2 && LengthWord(4) == 4;
  }

  lemma TailWords(p: Platform)
    ensures TailBits(p, [0x61]) == 0x61 && TailBits(p, [0x65]) == 0x65 && TailBits(p, [0x61, 0x62]) == 0x6261
    ensures TailBits(p, [0x61, 0x62, 0x63]) == 0x636261
    ensures TailBits(p, [0x80]) == if p.signedChar then 0xffffff80 else 0x80
    ensures TailBits(p, [0x61, 0x80, 0x81]) == if p.signedChar then 0x7e8061 else 0x818061
  {
  }

  lemma MixedWords()
    ensures Mul(Xor(0x34a4b626, 0x61)) == 0x9abbb653 && Mul(Xor(0x34a4b625, 0x6261)) == 0x20a56f94
    ensures Mul(Xor(0x34a4b624, 0x636261)) == 0x6bd65929
    ensures Mul(Xor(0x34a4b626, 0xffffff80)) == 0x94aff39e && Mul(Xor(0x34a4b626, 0x80)) == 0xada1649e
    ensures Mul(Xor(0x34a4b624, 0x7e8061)) == 0x33bb6329 && Mul(Xor(0x34a4b624, 0x818061)) == 0xd626329
    ensures MixBlock(0x34a4b623, 0x64636261) == 0x5dc36428 && MixBlock(0x34a4b622, 0x64636261) == 0xb9914abd
    ensures MixBlock(0x34a4b623, 0x61626364) == 0x6597c494 && MixBlock(0x34a4b622, 0x61626364) == 0x81c5ea01
    ensures Mul(Xor(0xb9914abd, 0x65)) == 0x210727b8 && Mul(Xor(0x81c5ea01, 0x65)) == 0x922a7034
  {
  }

  lemma FinishedWords()
    ensures Finish(0x34a4b627) == 0x1d02d82f && Finish(0x9abbb653) == 0x3ef2878 && Finish(0x20a56f94) == 0xafc9a7ba
    ensures Finish(0x6bd65929) == 0xf5756ade && Finish(0x94aff39e) == 0x627d9d0f && Finish(0xada1649e) == 0x26d77d17
    ensures Finish(0x33bb6329) == 0x77724a3f && Finish(0xd626329) == 0x58e52209
    ensures Finish(0x5dc36428) == 0xad11808e && Finish(0x6597c494) == 0x1f4364f4
    ensures Finish(0x210727b8) == 0x7d27f55b && Finish(0x922a7034) == 0x62862afe
  {
  }

  lemma ShortKey(p: Platform, key: seq<bv8>, bits: bv32)
    requires |key| < 4 && (key != [] ==> TailBits(p, key) == bits)
    ensures Hash(p, key) == Finish(if key == [] then Start(0) else Mul(Xor(Start(|key|), bits)))
  {
    hide TailBits, Start, Finish, Mul, Xor;
    assert Rest(key) == key;
  }

  lemma OneBlock(p: Platform, t: seq<bv8>)
    requires |t| < 2
    ensures var key, word: bv32 := [0x61, 0x62, 0x63, 0x64] + t, if p.littleEndian then 0x64636261 else 0x61626364;
            Hash(p, key) == Finish(MixTail(p, MixBlock(Start(4 + |t|), word), t))
  {
    hide MixTail, MixBlock, Start, Finish, Word;
    var key: seq<bv8> := [0x61, 0x62, 0x63, 0x64] + t;
    assert Rest(key) == t && key[4..] == t;
    KnownWord(p);
    assert Blocks(p, MixBlock(Start(4 + |t|), FirstWord(p, key)), key[4..])
        == MixBlock(Start(4 + |t|), FirstWord(p, key));
  }

  lemma KnownWord(p: Platform)
    ensures Word(p, 0x61, 0x62, 0x63, 0x64) == if p.littleEndian then 0x64636261 else 0x61626364
  {
  }

  // The loop and the fall-through switch, as written.
  method Compute(p: Platform, key: seq<bv8>) returns (h: bv32)
    ensures h == Hash(p, key)
  {
    hide Word, Promote, Mul, Fold, Xor, Start, TailBits, Shl8, Shl16;
    h := Start(|key|);
    var at, len := 0, |key|;
    while len >= 4
      invariant 0 <= len <= |key| && at == |key| - len && len % 4 == |key| % 4
      invariant Blocks(p, h, key[at..]) == Blocks(p, Start(|key|), key)
    {
      var k := Word(p, key[at], key[at + 1], key[at + 2], key[at + 3]);
      k := Mul(k);
      k := Fold(k, By24);
      k := Mul(k);
      h := Mul(h);
      h := Xor(h, k);
      assert key[at..][4..] == key[at + 4..];
      at, len := at + 4, len - 4;
    }
    assert key[at..] == Rest(key);
    ghost var before := h;
    if len == 3 {
      h := Xor(h, Shl16(Promote(p, key[at + 2])));
    }
    if len >= 2 {
      h := Xor(h, Shl8(Promote(p, key[at + 1])));
    }
    if len >= 1 {
      h := Xor(h, Promote(p, key[at]));
      SwitchIsTail(p, before, Rest(key));
      h := Mul(h);
    }
    h := Fold(h, By13);
    h := Mul(h);
    h := Fold(h, By15);
  }

  lemma SwitchIsTail(p: Platform, h: bv32, t: seq<bv8>)
    requires 0 < |t| < 4
    ensures |t| == 1 ==> Xor(h, Promote(p, t[0])) == Xor(h, TailBits(p, t))
    ensures |t| == 2 ==> Xor(Xor(h, Shl8(Promote(p, t[1]))), Promote(p, t[0])) == Xor(h, TailBits(p, t))
    ensures |t| == 3 ==>
              Xor(Xor(Xor(h, Shl16(Promote(p, t[2]))), Shl8(Promote(p, t[1]))), Promote(p, t[0]))
              == Xor(h, TailBits(p, t))
  {
    hide Promote, Xor, Shl8, Shl16, Join2, Join3;
    if |t| == 2 {
      XorJoin2(h, Promote(p, t[1]), Promote(p, t[0]));
    } else if |t| == 3 {
      XorJoin3(h, Promote(p, t[2]), Promote(p, t[1]), Promote(p, t[0]));
    }
  }

  // ---- every mixing step is injective ----

  lemma PackLow(b0: bv8, b1: bv8, b2: bv8, b3: bv8, c0: bv8, c1: bv8, c2: bv8, c3: bv8)
    requires Pack(b0, b1, b2, b3) == Pack(c0, c1, c2, c3)
    ensures b0 == c0
  {
  }

  lemma PackSecond(b0: bv8, b1: bv8, b2: bv8, b3: bv8, c0: bv8, c1: bv8, c2: bv8, c3: bv8)
    requires Pack(b0, b1, b2, b3) == Pack(c0, c1, c2, c3)
    ensures b1 == c1
  {
  }

  lemma PackThird(b0: bv8, b1: bv8, b2: bv8, b3: bv8, c0: bv8, c1: bv8, c2: bv8, c3: bv8)
    requires Pack(b0, b1, b2, b3) == Pack(c0, c1, c2, c3)
    ensures b2 == c2
  {
  }

  lemma PackHigh(b0: bv8, b1: bv8, b2: bv8, b3: bv8, c0: bv8, c1: bv8, c2: bv8, c3: bv8)
    requires Pack(b0, b1, b2, b3) == Pack(c0, c1, c2, c3)
    ensures b3 == c3
  {
  }

  lemma PackInjective(b0: bv8, b1: bv8, b2: bv8, b3: bv8, c0: bv8, c1: bv8, c2: bv8, c3: bv8)
    requires Pack(b0, b1, b2, b3) == Pack(c0, c1, c2, c3)
    ensures b0 == c0 && b1 == c1 && b2 == c2 && b3 == c3
  {
    hide Pack;
    PackLow(b0, b1, b2, b3, c0, c1, c2, c3);
    PackSecond(b0, b1, b2, b3, c0, c1, c2, c3);
    PackThird(b0, b1, b2, b3, c0, c1, c2, c3);
    PackHigh(b0, b1, b2, b3, c0, c1, c2, c3);
  }

  lemma WordInjective(p: Platform, a: seq<bv8>, b: seq<bv8>)
    requires |a| >= 4 && |b| >= 4 && FirstWord(p, a) == FirstWord(p, b)
    ensures a[..4] == b[..4]
  {
    hide Pack;
    if p.littleEndian {
      PackInjective(a[0], a[1], a[2], a[3], b[0], b[1], b[2], b[3]);
    } else {
      PackInjective(a[3], a[2], a[1], a[0], b[3], b[2], b[1], b[0]);
    }
  }

  lemma Tail1(p: Platform, a: bv8, b: bv8)
    requires Promote(p, a) == Promote(p, b)
    ensures a == b
  {
  }

  lemma Tail2(p: Platform, a0: bv8, a1: bv8, b0: bv8, b1: bv8)
    requires Join2(Promote(p, a1), Promote(p, a0)) == Join2(Promote(p, b1), Promote(p, b0))
    ensures a0 == b0 && a1 == b1
  {
  }

  lemma Tail3Low(p: Platform, a0: bv8, a1: bv8, a2: bv8, b0: bv8, b1: bv8, b2: bv8)
    requires Join3(Promote(p, a2), Promote(p, a1), Promote(p, a0))
         == Join3(Promote(p, b2), Promote(p, b1), Promote(p, b0))
    ensures a0 == b0
  {
  }

  lemma Tail3Middle(p: Platform, c0: bv8, a1: bv8, a2: bv8, b1: bv8, b2: bv8)
    requires Join3(Promote(p, a2), Promote(p, a1), Promote(p, c0))
         == Join3(Promote(p, b2), Promote(p, b1), Promote(p, c0))
    ensures a1 == b1
  {
  }

  lemma Tail3High(p: Platform, c0: bv8, c1: bv8, a2: bv8, b2: bv8)
    requires Join3(Promote(p, a2), Promote(p, c1), Promote(p, c0))
         == Join3(Promote(p, b2), Promote(p, c1), Promote(p, c0))
    ensures a2 == b2
  {
  }

  lemma TailInjective(p: Platform, a: seq<bv8>, b: seq<bv8>)
    requires 0 < |a| == |b| < 4 && TailBits(p, a) == TailBits(p, b)
    ensures a == b
  {
    hide Promote, Join2, Join3;
    if |a| == 1 {
      Tail1(p, a[0], b[0]);
    } else if |a| == 2 {
      Tail2(p, a[0], a[1], b[0], b[1]);
    } else {
      Tail3Low(p, a[0], a[1], a[2], b[0], b[1], b[2]);
      Tail3Middle(p, a[0], a[1], a[2], b[1], b[2]);
      Tail3High(p, a[0], a[1], a[2], b[2]);
    }
  }

  lemma MixBlockInjective(h: bv32, h': bv32, k: bv32, k': bv32)
    requires MixBlock(h, k) == MixBlock(h', k')
    ensures k == k' ==> h == h'
    ensures h == h' ==> k == k'
  {
    hide Mul, Fold, Xor;
    if k == k' {
      XorInjective(Mul(h), Mul(h'), MixKey(k));
      MulInjective(h, h');
    }
    if h == h' {
      XorInjective(MixKey(k), MixKey(k'), Mul(h));
      MulInjective(Fold(Mul(k), By24), Fold(Mul(k'), By24));
      FoldInjective(Mul(k), Mul(k'), By24);
      MulInjective(k, k');
    }
  }

  lemma FinishInjective(h: bv32, h': bv32)
    requires Finish(h) == Finish(h')
    ensures h == h'
  {
    hide Mul, Fold;
    FoldInjective(Mul(Fold(h, By13)), Mul(Fold(h', By13)), By15);
    MulInjective(Fold(h, By13), Fold(h', By13));
    FoldInjective(h, h', By13);
  }

  lemma MixTailInjective(p: Platform, h: bv32, h': bv32, t: seq<bv8>, t': seq<bv8>)
    requires |t| == |t'| < 4 && MixTail(p, h, t) == MixTail(p, h', t')
    ensures t == t' ==> h == h'
    ensures h == h' ==> t == t'
  {
    hide Mul, Xor, TailBits;
    if t != [] {
      MulInjective(Xor(h, TailBits(p, t)), Xor(h', TailBits(p, t')));
      XorInjective(h, h', TailBits(p, t));
      XorInjective(TailBits(p, t), TailBits(p, t'), h);
      if h == h' {
        TailInjective(p, t, t');
      }
    }
  }

  // ---- no collisions inside one block, or inside the tail ----

  lemma {:induction false} BlocksInjective(p: Platform, h: bv32, h': bv32, key: seq<bv8>)
    requires Blocks(p, h, key) == Blocks(p, h', key)
    ensures h == h'
    decreases |key|
  {
    hide MixBlock, FirstWord;
    if |key| >= 4 {
      var k := FirstWord(p, key);
      BlocksInjective(p, MixBlock(h, k), MixBlock(h', k), key[4..]);
      MixBlockInjective(h, h', k, k);
    }
  }

  // Keys that agree outside the aligned block at `at`, and differ inside it.
  predicate DifferInBlock(a: seq<bv8>, b: seq<bv8>, at: nat) {
    && |a| == |b| && at % 4 == 0 && at + 4 <= |a|
    && a[..at] == b[..at] && a[at..at + 4] != b[at..at + 4] && a[at + 4..] == b[at + 4..]
  }

  lemma {:induction false} BlocksDiffer(p: Platform, h: bv32, a: seq<bv8>, b: seq<bv8>, at: nat)
    requires DifferInBlock(a, b, at)
    ensures Blocks(p, h, a) != Blocks(p, h, b)
    decreases at
  {
    hide MixBlock, FirstWord;
    var ka, kb := FirstWord(p, a), FirstWord(p, b);
    if at == 0 {
      assert a[4..] == b[4..] && a[..4] == a[at..at + 4] && b[..4] == b[at..at + 4];
      if Blocks(p, h, a) == Blocks(p, h, b) {
        BlocksInjective(p, MixBlock(h, ka), MixBlock(h, kb), a[4..]);
        MixBlockInjective(h, h, ka, kb);
        WordInjective(p, a, b);
      }
    } else {
      SameFirstWord(p, a, b, at);
      assert a[4..][..at - 4] == a[..at][4..] && b[4..][..at - 4] == b[..at][4..];
      assert a[4..][at - 4..at] == a[at..at + 4] && b[4..][at - 4..at] == b[at..at + 4];
      assert a[4..][at..] == a[at + 4..] && b[4..][at..] == b[at + 4..];
      BlocksDiffer(p, MixBlock(h, ka), a[4..], b[4..], at - 4);
    }
  }

  lemma SameFirstWord(p: Platform, a: seq<bv8>, b: seq<bv8>, at: nat)
    requires 4 <= at <= |a| && at <= |b| && a[..at] == b[..at]
    ensures FirstWord(p, a) == FirstWord(p, b)
  {
    hide Word;
    assert forall i :: 0 <= i < 4 ==> a[i] == a[..at][i] && b[i] == b[..at][i];
  }

  // On every platform, keys of equal length that differ only inside one aligned block collide never.
  lemma NoBlockCollision(p: Platform, a: seq<bv8>, b: seq<bv8>, at: nat)
    requires DifferInBlock(a, b, at)
    ensures Hash(p, a) != Hash(p, b)
  {
    hide Blocks, Start, MixTail, Finish;
    var n := |a|;
    assert Rest(a) == Rest(b) by {
      assert Rest(a) == a[at + 4..][n - n % 4 - (at + 4)..];
      assert Rest(b) == b[at + 4..][n - n % 4 - (at + 4)..];
    }
    BlocksDiffer(p, Start(n), a, b, at);
    if Hash(p, a) == Hash(p, b) {
      FinishInjective(MixTail(p, Blocks(p, Start(n), a), Rest(a)), MixTail(p, Blocks(p, Start(n), b), Rest(b)));
      MixTailInjective(p, Blocks(p, Start(n), a), Blocks(p, Start(n), b), Rest(a), Rest(b));
    }
  }

  lemma {:induction false} BlocksIgnoreRest(p: Platform, h: bv32, a: seq<bv8>, b: seq<bv8>)
    requires |a| == |b| && a[..|a| - |a| % 4] == b[..|a| - |a| % 4]
    ensures Blocks(p, h, a) == Blocks(p, h, b)
    decreases |a|
  {
    hide MixBlock, FirstWord;
    if |a| >= 4 {
      var whole := |a| - |a| % 4;
      SameFirstWord(p, a, b, whole);
      assert a[4..][..whole - 4] == a[..whole][4..] && b[4..][..whole - 4] == b[..whole][4..];
      BlocksIgnoreRest(p, MixBlock(h, FirstWord(p, a)), a[4..], b[4..]);
    }
  }

  // Nor do keys of equal length that differ only in the last one to three bytes.
  lemma NoTailCollision(p: Platform, a: seq<bv8>, b: seq<bv8>)
    requires |a| == |b| && a[..|a| - |a| % 4] == b[..|a| - |a| % 4] && a != b
    ensures Hash(p, a) != Hash(p, b)
  {
    hide Blocks, Start, MixTail, Finish;
    BlocksIgnoreRest(p, Start(|a|), a, b);
    var h := Blocks(p, Start(|a|), a);
    assert Rest(a) != Rest(b) by {
      var whole := |a| - |a| % 4;
      assert a == a[..whole] + Rest(a) && b == b[..whole] + Rest(b);
    }
    if Hash(p, a) == Hash(p, b) {
      FinishInjective(MixTail(p, h, Rest(a)), MixTail(p, h, Rest(b)));
      MixTailInjective(p, h, h, Rest(a), Rest(b));
    }
  }
}
