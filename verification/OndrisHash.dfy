/** The proof-of-work mix: an in-place byte buffer against its meaning as 32
    words, in the two copies the repository has. Hash and keystream are given. */
module OndrisHash {
  type Buffer = seq<bv8>
  type Digest = s: seq<bv8> | |s| == 32 witness Zeros(32)

  function Zeros(n: nat): (s: seq<bv8>)
    ensures |s| == n
  {
    if n == 0 then [] else Zeros(n - 1) + [0]
  }

  const ITEM_SIZE: nat := 128
  const WORDS_PER_ITEM: nat := 32

  datatype Oracle = Oracle(hash: Buffer -> Digest, keystream: Digest -> seq<bv8>)

  /** The keystream fills one item. */
  ghost predicate FillsItem(o: Oracle) {
    forall seed: Digest :: |o.keystream(seed)| == ITEM_SIZE
  }

  /** One FNV step with its 32-bit prime; the multiplication wraps. */
  function Fnv(a: bv32, b: bv32): bv32 {
    (a * 0x0100_0193) ^ b
  }

  // ----- words in a byte buffer -----

  function ReadU32(s: Buffer, offset: nat): bv32
    requires offset + 4 <= |s|
  {
    (s[offset] as bv32) | ((s[offset + 1] as bv32) << 8)
    | ((s[offset + 2] as bv32) << 16) | ((s[offset + 3] as bv32) << 24)
  }

  function LowByte(v: bv32): bv8 {
    (v & 0xFF) as bv8
  }

  function LeBytes(v: bv32): (s: Buffer)
    ensures |s| == 4
  {
    [LowByte(v), LowByte(v >> 8), LowByte(v >> 16), LowByte(v >> 24)]
  }

  lemma LeRoundTrip(v: bv32)
    ensures ReadU32(LeBytes(v), 0) == v
  {
  }

  function Words(s: Buffer): (ws: seq<bv32>)
    requires |s| % 4 == 0
    ensures |ws| == |s| / 4
    ensures forall i :: 0 <= i < |ws| ==> ws[i] == ReadU32(s, 4 * i)
  {
    seq(|s| / 4, i requires 0 <= i < |s| / 4 => ReadU32(s, 4 * i))
  }

  function Overwrite(s: Buffer, offset: nat, v: bv32): (r: Buffer)
    requires offset + 4 <= |s|
    ensures |r| == |s|
  {
    s[..offset] + LeBytes(v) + s[offset + 4..]
  }

  /** Writing four bytes at a word boundary changes that word and no other. */
  lemma OverwriteWord(s: Buffer, w: nat, v: bv32)
    requires |s| % 4 == 0 && 4 * w + 4 <= |s|
    ensures Words(Overwrite(s, 4 * w, v)) == Words(s)[w := v]
  {
    LeRoundTrip(v);
    var t := Overwrite(s, 4 * w, v);
    hide LeBytes;
    forall i | 0 <= i < |Words(t)| ensures Words(t)[i] == Words(s)[w := v][i] {
      if i == w {
        assert t[4 * w..4 * w + 4] == LeBytes(v);
        SameBytesSameWord(t, 4 * w, LeBytes(v), 0);
      } else {
        SameBytesSameWord(t, 4 * i, s, 4 * i);
      }
    }
  }

  lemma SameBytesSameWord(s: Buffer, i: nat, t: Buffer, j: nat)
    requires i + 4 <= |s| && j + 4 <= |t|
    requires s[i] == t[j] && s[i + 1] == t[j + 1] && s[i + 2] == t[j + 2] && s[i + 3] == t[j + 3]
    ensures ReadU32(s, i) == ReadU32(t, j)
  {
  }

  // ----- the word-level meaning -----

  function ItemCount(dataset: Buffer): nat {
    |dataset| / ITEM_SIZE
  }

  /** Which item the i-th access touches, given one word of the mix. */
  function Pick(n: nat, seedWord: bv32, mixWord: bv32, i: nat): (k: nat)
    requires n > 0
    ensures k < n
  {
    Fnv(seedWord ^ Counter(i), mixWord) as nat % n
  }

  function Item(dataset: Buffer, k: nat): (item: Buffer)
    requires k < ItemCount(dataset)
    ensures |item| == ITEM_SIZE
  {
    dataset[k * ITEM_SIZE..(k + 1) * ITEM_SIZE]
  }

  function Combine(a: seq<bv32>, b: seq<bv32>): (c: seq<bv32>)
    requires |a| == |b|
    ensures |c| == |a|
    ensures forall i :: 0 <= i < |c| ==> c[i] == Fnv(a[i], b[i])
  {
    if a == [] then [] else Combine(a[..|a| - 1], b[..|b| - 1]) + [Fnv(a[|a| - 1], b[|b| - 1])]
  }

  /** The 32 mix words after k dataset accesses. */
  function MixAfter(dataset: Buffer, seedWord: bv32, start: seq<bv32>, k: nat): (mix: seq<bv32>)
    requires |start| == WORDS_PER_ITEM && ItemCount(dataset) > 0
    ensures |mix| == WORDS_PER_ITEM
  {
    if k == 0 then start
    else
      var mix := MixAfter(dataset, seedWord, start, k - 1);
      Combine(mix, Words(Item(dataset, Pick(ItemCount(dataset), seedWord, mix[(k - 1) % WORDS_PER_ITEM], k - 1))))
  }

  function Fold4(mix: seq<bv32>, i: nat): bv32
    requires 4 * i + 4 <= |mix|
  {
    Fnv(Fnv(Fnv(mix[4 * i], mix[4 * i + 1]), mix[4 * i + 2]), mix[4 * i + 3])
  }

  function Folded(mix: seq<bv32>, n: nat): (s: Buffer)
    requires 4 * n <= |mix|
    ensures |s| == 4 * n
  {
    if n == 0 then [] else Folded(mix, n - 1) + LeBytes(Fold4(mix, n - 1))
  }

  /** The whole hash over words. */
  function Meaning(o: Oracle, header: Buffer, nonce: Buffer, dataset: Buffer, accesses: nat): Digest
    requires FillsItem(o) && ItemCount(dataset) > 0
  {
    var seed := o.hash(header + nonce);
    var mix := MixAfter(dataset, ReadU32(seed, 0), Words(o.keystream(seed)), accesses);
    o.hash(seed + Folded(mix, 8))
  }

  // ----- the meaning written out -----

  lemma XorTwice(x: bv32, b: bv32)
    ensures (x ^ b) ^ b == x
  {
  }

  /** Multiply by the prime first, then xor: the second argument xored away again
      leaves the product. */
  lemma FnvLaw(a: bv32, b: bv32)
    ensures Fnv(a, b) ^ b == a * 0x0100_0193
  {
    XorTwice(a * 0x0100_0193, b);
  }

  /** r is a times the prime, xored with b. */
  predicate Mixed(a: bv32, b: bv32, r: bv32) {
    r ^ b == a * 0x0100_0193
  }

  lemma XorApart(r: bv32, t: bv32, b: bv32)
    ensures r ^ b == t ^ b <==> r == t
  {
  }

  lemma MixedIff(a: bv32, b: bv32, r: bv32)
    ensures Mixed(a, b, r) <==> r == Fnv(a, b)
  {
    FnvLaw(a, b);
    XorApart(r, Fnv(a, b), b);
    hide Fnv;
  }

  /** Four bytes are one word, lowest byte first. */
  lemma WordLaw(s: Buffer, offset: nat)
    requires offset + 4 <= |s|
    ensures ReadU32(s, offset) as nat
         == s[offset] as nat + 0x100 * s[offset + 1] as nat + 0x1_0000 * s[offset + 2] as nat
            + 0x100_0000 * s[offset + 3] as nat
  {
    var a, b, c, d := s[offset], s[offset + 1], s[offset + 2], s[offset + 3];
    JoinBytes(a, b, c, d);
  }

  lemma JoinBytes(a: bv8, b: bv8, c: bv8, d: bv8)
    ensures ((a as bv32) | ((b as bv32) << 8) | ((c as bv32) << 16) | ((d as bv32) << 24)) as nat
         == a as nat + 0x100 * b as nat + 0x1_0000 * c as nat + 0x100_0000 * d as nat
  {
  }

  /** The low 32 bits of the number of an access. */
  function Counter(i: nat): bv32 {
    (i % 0x1_0000_0000) as bv32
  }

  /** The item an access touches: the seed word xored with the number of the access,
      mixed with one word of the mix, modulo the number of items. */
  lemma PickLaw(n: nat, seedWord: bv32, mixWord: bv32, i: nat, x: bv32)
    requires n > 0 && Mixed(seedWord ^ Counter(i), mixWord, x)
    ensures Pick(n, seedWord, mixWord, i) == x as nat % n
  {
    hide Fnv, Mixed, Counter;
    MixedIff(seedWord ^ Counter(i), mixWord, x);
  }

  /** Below 2^32 nothing of the number is cut off. */
  lemma CounterLaw(i: nat)
    requires i < 0x1_0000_0000
    ensures Counter(i) == i as bv32
  {
    assert i % 0x1_0000_0000 == i;
  }

  /** Items are 128 bytes each; word w of an item starts at its byte 4 * w. */
  lemma {:induction false} ItemLaw(dataset: Buffer, k: nat, w: nat)
    requires k < ItemCount(dataset) && w < 32
    ensures ItemCount(dataset) == |dataset| / 128 && 128 * k + 128 <= |dataset|
    ensures Item(dataset, k) == dataset[128 * k..128 * k + 128]
    ensures Words(Item(dataset, k))[w] == ReadU32(dataset, 128 * k + 4 * w)
  {
    hide ReadU32;
    SameBytesSameWord(Item(dataset, k), 4 * w, dataset, 128 * k + 4 * w);
  }

  /** One access: every word of the mix is mixed with the item's word in the same place. */
  lemma {:induction false} MixLaw(dataset: Buffer, seedWord: bv32, start: seq<bv32>, i: nat, w: nat, x: bv32)
    requires |start| == 32 && |dataset| >= 128 && w < 32 && ItemCount(dataset) > 0
    requires Mixed(seedWord ^ Counter(i), MixAfter(dataset, seedWord, start, i)[i % 32], x)
    ensures MixAfter(dataset, seedWord, start, 0) == start
    ensures var k := x as nat % (|dataset| / 128);
      && 128 * k + 128 <= |dataset|
      && Mixed(MixAfter(dataset, seedWord, start, i)[w], ReadU32(dataset, 128 * k + 4 * w),
               MixAfter(dataset, seedWord, start, i + 1)[w])
  {
    hide ReadU32, Pick, Item, Fnv, Words, Combine, Mixed, Counter;
    var mix := MixAfter(dataset, seedWord, start, i);
    PickLaw(ItemCount(dataset), seedWord, mix[i % 32], i, x);
    var k := Pick(ItemCount(dataset), seedWord, mix[i % 32], i);
    ItemLaw(dataset, k, w);
    MixedIff(mix[w], ReadU32(dataset, 128 * k + 4 * w), Fnv(mix[w], ReadU32(dataset, 128 * k + 4 * w)));
  }

  /** The final fold of words 4i to 4i + 3. */
  lemma FoldLaw(mix: seq<bv32>, i: nat, a: bv32, b: bv32, c: bv32)
    requires 4 * i + 4 <= |mix|
    requires Mixed(mix[4 * i], mix[4 * i + 1], a) && Mixed(a, mix[4 * i + 2], b) && Mixed(b, mix[4 * i + 3], c)
    ensures Fold4(mix, i) == c
  {
    hide Fnv, Mixed;
    MixedIff(mix[4 * i], mix[4 * i + 1], a);
    MixedIff(a, mix[4 * i + 2], b);
    MixedIff(b, mix[4 * i + 3], c);
  }

  /** The folded words stand in their order, four bytes each. */
  lemma {:induction false} FoldedWord(mix: seq<bv32>, i: nat, n: nat)
    requires i < n && 4 * n <= |mix|
    ensures Folded(mix, n)[4 * i..4 * i + 4] == LeBytes(Fold4(mix, i))
    ensures ReadU32(Folded(mix, n), 4 * i) == Fold4(mix, i)
  {
    hide LeBytes, ReadU32, Fold4;
    if i + 1 < n {
      FoldedWord(mix, i, n - 1);
      assert Folded(mix, n)[4 * i..4 * i + 4] == Folded(mix, n - 1)[4 * i..4 * i + 4];
    }
    LeRoundTrip(Fold4(mix, i));
    SliceBytes(Folded(mix, n), 4 * i, LeBytes(Fold4(mix, i)));
  }

  lemma SliceBytes(s: Buffer, offset: nat, bytes: Buffer)
    requires offset + 4 <= |s| && |bytes| == 4 && s[offset..offset + 4] == bytes
    ensures ReadU32(s, offset) == ReadU32(bytes, 0)
  {
    assert s[offset..offset + 4][0] == s[offset] && s[offset..offset + 4][1] == s[offset + 1];
    assert s[offset..offset + 4][2] == s[offset + 2] && s[offset..offset + 4][3] == s[offset + 3];
    SameBytesSameWord(s, offset, bytes, 0);
  }

  // ----- the code -----

  method WriteU32(buf: array<bv8>, offset: nat, v: bv32)
    requires offset + 4 <= buf.Length
    modifies buf
    ensures buf[..] == Overwrite(old(buf[..]), offset, v)
  {
    var bytes := LeBytes(v);
    hide LeBytes;
    buf[offset], buf[offset + 1], buf[offset + 2], buf[offset + 3] := bytes[0], bytes[1], bytes[2], bytes[3];
    assert buf[..] == old(buf[..offset]) + bytes + old(buf[offset + 4..]);
  }

  /** Mixes one item into the buffer, word by word in place. */
  method MixItem(mix: array<bv8>, item: Buffer)
    requires mix.Length == ITEM_SIZE && |item| == ITEM_SIZE
    modifies mix
    ensures Words(mix[..]) == Combine(Words(old(mix[..])), Words(item))
  {
    hide Fnv, ReadU32, Overwrite;
    ghost var before := mix[..];
    for w := 0 to WORDS_PER_ITEM
      invariant forall i :: 0 <= i < WORDS_PER_ITEM ==>
        Words(mix[..])[i] == if i < w then Fnv(Words(before)[i], Words(item)[i]) else Words(before)[i]
    {
      OverwriteWord(mix[..], w, Fnv(ReadU32(mix[..], w * 4), ReadU32(item, w * 4)));
      WriteU32(mix, w * 4, Fnv(ReadU32(mix[..], w * 4), ReadU32(item, w * 4)));
    }
  }

  lemma FourWords(s: Buffer, i: nat)
    requires |s| == ITEM_SIZE && i < 8
    ensures Fold4(Words(s), i) ==
      Fnv(Fnv(Fnv(ReadU32(s, i * 16), ReadU32(s, i * 16 + 4)), ReadU32(s, i * 16 + 8)), ReadU32(s, i * 16 + 12))
  {
    hide Fnv, ReadU32;
  }

  /** Folds the mix buffer to 32 bytes, four words at a time. */
  method Compress(mix: array<bv8>) returns (compressed: Buffer)
    requires mix.Length == ITEM_SIZE
    ensures compressed == Folded(Words(mix[..]), 8)
  {
    hide Fnv, ReadU32, LeBytes, Words, Fold4;
    compressed := [];
    for i := 0 to 8
      invariant compressed == Folded(Words(mix[..]), i)
    {
      FourWords(mix[..], i);
      var base := i * 16;
      var w0 := ReadU32(mix[..], base);
      var w1 := ReadU32(mix[..], base + 4);
      var w2 := ReadU32(mix[..], base + 8);
      var w3 := ReadU32(mix[..], base + 12);
      compressed := compressed + LeBytes(Fnv(Fnv(Fnv(w0, w1), w2), w3));
    }
  }

  function AtLeastOne(n: nat): (m: nat)
    ensures m >= 1 && (n >= 1 ==> m == n)
  {
    if n < 1 then 1 else n
  }

  lemma MeaningParts(o: Oracle, header: Buffer, nonce: Buffer, dataset: Buffer, accesses: nat)
    requires FillsItem(o) && ItemCount(dataset) > 0
    ensures var seed := o.hash(header + nonce);
      && |o.keystream(seed)| == ITEM_SIZE && ITEM_SIZE == 128 && WORDS_PER_ITEM == 32
      && Meaning(o, header, nonce, dataset, accesses)
         == o.hash(seed + Folded(MixAfter(dataset, ReadU32(seed, 0), Words(o.keystream(seed)), accesses), 8))
  {
  }

  lemma MixStart(dataset: Buffer, seedWord: bv32, stream: Buffer)
    requires |stream| == ITEM_SIZE && ItemCount(dataset) > 0
    ensures MixAfter(dataset, seedWord, Words(stream), 0) == Words(stream)
  {
  }

  lemma {:induction false} MixStep(dataset: Buffer, seedWord: bv32, stream: Buffer, mix: Buffer, i: nat)
    requires |stream| == |mix| == ITEM_SIZE && ItemCount(dataset) > 0
    requires Words(mix) == MixAfter(dataset, seedWord, Words(stream), i)
    ensures var k := Pick(ItemCount(dataset), seedWord, ReadU32(mix, i % WORDS_PER_ITEM * 4), i);
      && k % ItemCount(dataset) == k && (k + 1) * ITEM_SIZE <= |dataset|
      && dataset[k * ITEM_SIZE..k * ITEM_SIZE + ITEM_SIZE] == Item(dataset, k)
      && MixAfter(dataset, seedWord, Words(stream), i + 1) == Combine(Words(mix), Words(Item(dataset, k)))
  {
    hide Fnv, ReadU32, Combine, Pick;
    ModSmall(Pick(ItemCount(dataset), seedWord, ReadU32(mix, i % WORDS_PER_ITEM * 4), i), ItemCount(dataset));
  }

  lemma ModSmall(k: nat, n: nat)
    requires k < n
    ensures k % n == k
  {
  }

  /** The node's copy: an item index is reduced again when the item is fetched. */
  method HashWithAccesses(o: Oracle, header: Buffer, nonce: Buffer, dataset: Buffer, accesses: nat)
    returns (digest: Digest)
    requires FillsItem(o) && ItemCount(dataset) > 0
    ensures digest == Meaning(o, header, nonce, dataset, accesses)
  {
    hide *;
    MeaningParts(o, header, nonce, dataset, accesses);
    var seed := o.hash(header + nonce);
    var stream := o.keystream(seed);
    var mix := new bv8[ITEM_SIZE](i requires 0 <= i < ITEM_SIZE => stream[i]);
    assert mix[..] == stream;
    var seedWord := ReadU32(seed, 0);
    var items := AtLeastOne(ItemCount(dataset));
    MixStart(dataset, seedWord, stream);
    for i := 0 to accesses
      invariant Words(mix[..]) == MixAfter(dataset, seedWord, Words(stream), i)
    {
      var mixWord := ReadU32(mix[..], i % WORDS_PER_ITEM * 4);
      var k := Pick(items, seedWord, mixWord, i);
      MixStep(dataset, seedWord, stream, mix[..], i);
      var item := Item(dataset, k % ItemCount(dataset));
      MixItem(mix, item);
    }
    var compressed := Compress(mix);
    digest := o.hash(seed + compressed);
  }

  /** The miner's copy: slices the raw dataset directly. */
  method HashRawDataset(o: Oracle, header: Buffer, nonce: Buffer, dataset: Buffer, accesses: nat)
    returns (digest: Digest)
    requires FillsItem(o) && ItemCount(dataset) > 0
    ensures digest == Meaning(o, header, nonce, dataset, accesses)
  {
    hide *;
    MeaningParts(o, header, nonce, dataset, accesses);
    var seed := o.hash(header + nonce);
    var stream := o.keystream(seed);
    var mix := new bv8[ITEM_SIZE](i requires 0 <= i < ITEM_SIZE => stream[i]);
    assert mix[..] == stream;
    var seedWord := ReadU32(seed, 0);
    var items := AtLeastOne(ItemCount(dataset));
    MixStart(dataset, seedWord, stream);
    for i := 0 to accesses
      invariant Words(mix[..]) == MixAfter(dataset, seedWord, Words(stream), i)
    {
      var mixWord := ReadU32(mix[..], i % WORDS_PER_ITEM * 4);
      var k := Pick(items, seedWord, mixWord, i);
      MixStep(dataset, seedWord, stream, mix[..], i);
      MixItem(mix, dataset[k * ITEM_SIZE..k * ITEM_SIZE + ITEM_SIZE]);
    }
    var compressed := Compress(mix);
    digest := o.hash(seed + compressed);
  }
}
