/** How SHA-256 acts on known words: schedule and rounds eight at a time, padding and digest word by word. */
module HashSteps {
  import opened Bytes
  import opened SecureHash

  // --- Words and bytes ----------------------------------------------------------------------

  lemma WordRoundTrip(w: word)
    ensures ToWord(WordBytes(w)) == w
  {
  }

  lemma {:induction false} ConcatAt(ws: seq<word>, i: nat)
    requires i < |ws|
    ensures Concat(ws)[4 * i..4 * i + 4] == WordBytes(ws[i])
  {
    var n := |ws| - 1;
    if i < n {
      ConcatAt(ws[..n], i);
      assert Concat(ws)[4 * i..4 * i + 4] == Concat(ws[..n])[4 * i..4 * i + 4];
    }
  }

  lemma {:induction false} ConcatIs(b: Bytes, ws: seq<word>)
    requires |b| == 4 * |ws| && forall i :: 0 <= i < |ws| ==> b[4 * i..4 * i + 4] == WordBytes(ws[i])
    ensures b == Concat(ws)
  {
    var n := |ws| - 1;
    if ws != [] {
      var c := b[..4 * n];
      forall i | 0 <= i < n
        ensures c[4 * i..4 * i + 4] == WordBytes(ws[..n][i])
      {
        assert c[4 * i..4 * i + 4] == b[4 * i..4 * i + 4];
      }
      ConcatIs(c, ws[..n]);
      assert b == c + b[4 * n..4 * n + 4];
    }
  }

  lemma {:induction false} ConcatJoins(a: seq<word>, b: seq<word>)
    ensures Concat(a + b) == Concat(a) + Concat(b)
  {
    var n := |b| - 1;
    if b == [] {
      assert a + b == a;
    } else {
      ConcatJoins(a, b[..n]);
      assert (a + b)[..|a| + n] == a + b[..n];
    }
  }

  lemma ConcatNext(ws: seq<word>, i: nat)
    requires i < |ws|
    ensures Concat(ws[..i + 1]) == Concat(ws[..i]) + WordBytes(ws[i])
  {
    assert ws[..i + 1][..i] == ws[..i];
  }

  // A word, zeros, and a word, as bytes.
  lemma FirstZerosLast(first: word, zeros: seq<word>, last: word, low: Bytes, high: Bytes)
    requires low == WordBytes(first) && high == WordBytes(last) && forall i :: 0 <= i < |zeros| ==> zeros[i] == 0
    ensures Concat([first] + zeros + [last]) == low + Zeros(4 * |zeros|) + high
  {
    OneWord(first);
    ConcatZeros(zeros);
    OneWord(last);
    ConcatJoins([first], zeros);
    ConcatJoins([first] + zeros, [last]);
  }

  lemma OneWord(w: word)
    ensures Concat([w]) == WordBytes(w)
  {
    ConcatNext([w], 0);
    assert [w][..1] == [w];
  }

  lemma {:induction false} ConcatZeros(ws: seq<word>)
    requires forall i :: 0 <= i < |ws| ==> ws[i] == 0
    ensures Concat(ws) == Zeros(4 * |ws|)
  {
    if ws != [] {
      ConcatZeros(ws[..|ws| - 1]);
      assert WordBytes(0) == [0, 0, 0, 0];
    }
  }

  // --- Padding of whole words ---------------------------------------------------------------

  // A length below 2^16 bits, as the last two bytes.
  lemma ShortLength(v: nat, high: byte, low: byte)
    requires v < 0x1_0000 && (v / 256) as byte == high && (v % 256) as byte == low
    ensures BigEndian(v, LENGTH_BYTES) == [0, 0, 0, 0, 0, 0, high, low]
  {
    LastTwo(v, 6, high, low);
    assert Zeros(6) == [0, 0, 0, 0, 0, 0];
  }

  lemma LastTwo(v: nat, n: nat, high: byte, low: byte)
    requires v < 0x1_0000 && (v / 256) as byte == high && (v % 256) as byte == low
    ensures BigEndian(v, n + 2) == Zeros(n) + [high, low]
  {
    var q := v / 256;
    LastByte(v, q, n + 1, low);
    assert q % 256 == q && q / 256 == 0;
    LastByte(q, 0, n, high);
    ZeroBigEndian(n);
  }

  lemma LastByte(v: nat, q: nat, n: nat, last: byte)
    requires v / 256 == q && (v % 256) as byte == last
    ensures BigEndian(v, n + 1) == BigEndian(q, n) + [last]
  {
  }

  lemma {:induction false} ZeroBigEndian(n: nat)
    ensures BigEndian(0, n) == Zeros(n)
  {
    if n != 0 {
      ZeroBigEndian(n - 1);
    }
  }

  // A message of `n` words: the 1 bit starts a word of its own, then `z` zero words and the length follow.
  lemma PadOfWords(m: Bytes, n: nat, z: nat, length: Bytes)
    requires |m| == 4 * n && 0 < z < 16 && (n + 2 + z) % 16 == 0
    requires BigEndian(32 * n, LENGTH_BYTES) == [0, 0, 0, 0] + length
    ensures Pad(m) == m + ([0x80, 0, 0, 0] + Zeros(4 * z) + length)
  {
    ZeroCount(n, z);
    ShiftZeros(m, z, length);
  }

  lemma ZeroCount(n: nat, z: nat)
    requires 0 < z < 16 && (n + 2 + z) % 16 == 0
    ensures ZeroBytes(4 * n) == 4 * z - 1
  {
  }

  // A block `a` and a text that leave room for the padding in the block `b`.
  lemma PadAfter(a: seq<word>, b: seq<word>, text: Bytes, n: nat, z: nat, length: Bytes)
    requires 4 * |a| + |text| == 4 * n && 0 < z < 16 && (n + 2 + z) % 16 == 0
    requires BigEndian(32 * n, LENGTH_BYTES) == [0, 0, 0, 0] + length
    requires Concat(b) == text + ([0x80, 0, 0, 0] + Zeros(4 * z) + length)
    ensures Pad(Concat(a) + text) == Concat(a + b)
  {
    PadOfWords(Concat(a) + text, n, z, length);
    Append(a, b, text, [0x80, 0, 0, 0] + Zeros(4 * z) + length);
  }

  lemma Append(a: seq<word>, b: seq<word>, text: Bytes, ending: Bytes)
    requires Concat(b) == text + ending
    ensures Concat(a) + text + ending == Concat(a + b)
  {
    ConcatJoins(a, b);
  }

  lemma ShiftZeros(m: Bytes, z: nat, length: Bytes)
    requires z > 0
    ensures m + [0x80] + Zeros(4 * z - 1) + ([0, 0, 0, 0] + length)
            == m + ([0x80, 0, 0, 0] + Zeros(4 * z) + length)
  {
    assert [0x80] + Zeros(4 * z - 1) + [0, 0, 0, 0] == [0x80, 0, 0, 0] + Zeros(4 * z);
  }

  // --- Eight steps at a time ----------------------------------------------------------------

  function EightSteps<V, W>(step: (V, W, W) -> V, v: V, k: seq<W>, w: seq<W>): V
    requires |k| == |w| == 8
  {
    var v1 := step(v, k[0], w[0]);
    var v2 := step(v1, k[1], w[1]);
    var v3 := step(v2, k[2], w[2]);
    var v4 := step(v3, k[3], w[3]);
    var v5 := step(v4, k[4], w[4]);
    var v6 := step(v5, k[5], w[5]);
    var v7 := step(v6, k[6], w[6]);
    step(v7, k[7], w[7])
  }

  ghost predicate InARow<V, W>(step: (V, W, W) -> V, v: seq<V>, k: seq<W>, w: seq<W>) {
    && |v| == 9 && |k| == |w| == 8
    && forall i :: 0 <= i < 8 ==> v[i + 1] == step(v[i], k[i], w[i])
  }

  // Eight steps lead from `v` to `v'`.
  ghost predicate Leads<V(!new), W>(step: (V, W, W) -> V, v: V, k: seq<W>, w: seq<W>, v': V) {
    forall s: seq<V> :: InARow(step, s, k, w) && s[0] == v ==> s[8] == v'
  }

  lemma EightStepsLead<V(!new), W>(step: (V, W, W) -> V, v: V, k: seq<W>, w: seq<W>, v': V)
    requires |k| == |w| == 8 && EightSteps(step, v, k, w) == v'
    ensures Leads(step, v, k, w, v')
  {
    forall s: seq<V> | InARow(step, s, k, w) && s[0] == v
      ensures s[8] == v'
    {
      assert s[0 + 1] == step(s[0], k[0], w[0]) && s[1 + 1] == step(s[1], k[1], w[1]);
      assert s[2 + 1] == step(s[2], k[2], w[2]) && s[3 + 1] == step(s[3], k[3], w[3]);
      assert s[4 + 1] == step(s[4], k[4], w[4]) && s[5 + 1] == step(s[5], k[5], w[5]);
      assert s[6 + 1] == step(s[6], k[6], w[6]) && s[7 + 1] == step(s[7], k[7], w[7]);
    }
  }

  // After the words `a` and `b` come the words `c`.
  predicate Continues<W(==)>(extend: (W, W, W, W) -> W, a: seq<W>, b: seq<W>, c: seq<W>)
    requires |a| == |b| == |c| == 8
  {
    && c[0] == extend(b[6], b[1], a[1], a[0])
    && c[1] == extend(b[7], b[2], a[2], a[1])
    && c[2] == extend(c[0], b[3], a[3], a[2])
    && c[3] == extend(c[1], b[4], a[4], a[3])
    && c[4] == extend(c[2], b[5], a[5], a[4])
    && c[5] == extend(c[3], b[6], a[6], a[5])
    && c[6] == extend(c[4], b[7], a[7], a[6])
    && c[7] == extend(c[5], c[0], b[0], a[7])
  }

  // Entry `i` of `s` as the recurrence makes it.
  predicate Follows<W(==)>(extend: (W, W, W, W) -> W, s: seq<W>, i: nat)
    requires 16 <= i < |s|
  {
    s[i] == extend(s[i - 2], s[i - 7], s[i - 15], s[i - 16])
  }

  ghost predicate Recurrent<W>(extend: (W, W, W, W) -> W, s: seq<W>) {
    |s| == 24 && forall i :: 16 <= i < 24 ==> Follows(extend, s, i)
  }

  // The recurrence leads from the words `a` and `b` to the words `c`.
  ghost predicate LeadsOn<W(!new)>(extend: (W, W, W, W) -> W, a: seq<W>, b: seq<W>, c: seq<W>) {
    forall s: seq<W> :: Recurrent(extend, s) && s[..8] == a && s[8..16] == b ==> s[16..] == c
  }

  lemma EightWordsLeadOn<W(!new)>(extend: (W, W, W, W) -> W, a: seq<W>, b: seq<W>, c: seq<W>)
    requires |a| == |b| == |c| == 8 && Continues(extend, a, b, c)
    ensures LeadsOn(extend, a, b, c)
  {
    forall s: seq<W> | Recurrent(extend, s) && s[..8] == a && s[8..16] == b
      ensures s[16..] == c
    {
      ContinuesOnlyWay(extend, s, c);
    }
  }

  lemma ContinuesOnlyWay<W>(extend: (W, W, W, W) -> W, s: seq<W>, c: seq<W>)
    requires |s| == 24 && |c| == 8 && Continues(extend, s[..8], s[8..16], c)
    requires Follows(extend, s, 16) && Follows(extend, s, 17) && Follows(extend, s, 18) && Follows(extend, s, 19)
    requires Follows(extend, s, 20) && Follows(extend, s, 21) && Follows(extend, s, 22) && Follows(extend, s, 23)
    ensures s[16..] == c
  {
    assert s[16] == c[0] && s[17] == c[1] && s[18] == c[2] && s[19] == c[3];
    assert s[20] == c[4] && s[21] == c[5] && s[22] == c[6] && s[23] == c[7];
  }

  // Words `t` to `t + 7` of the schedule.
  ghost predicate Row(block: Bytes, t: nat, x: seq<word>)
    requires |block| == BLOCK_BYTES
  {
    |x| == 8 && forall i :: 0 <= i < 8 ==> Schedule(block, t + i) == x[i]
  }

  lemma FirstRows(a: seq<word>, b: seq<word>)
    requires |a| == |b| == 8
    ensures Row(Concat(a + b), 0, a) && Row(Concat(a + b), 8, b)
  {
    forall t | 0 <= t < 16
      ensures Schedule(Concat(a + b), t) == (a + b)[t]
    {
      ConcatAt(a + b, t);
      WordRoundTrip((a + b)[t]);
    }
  }

  function Words24(block: Bytes, t: nat): (s: seq<word>)
    requires |block| == BLOCK_BYTES
    ensures |s| == 24 && forall i :: 0 <= i < 24 ==> s[i] == Schedule(block, t + i)
  {
    seq(24, i requires 0 <= i < 24 => Schedule(block, t + i))
  }

  lemma NextWord(block: Bytes, t: nat, i: nat)
    requires |block| == BLOCK_BYTES && 16 <= i < 24
    ensures Follows(Extend, Words24(block, t), i)
  {
  }

  lemma NextRow(block: Bytes, t: nat, a: seq<word>, b: seq<word>, c: seq<word>)
    requires |block| == BLOCK_BYTES && Row(block, t, a) && Row(block, t + 8, b) && LeadsOn(Extend, a, b, c)
    ensures Row(block, t + 16, c)
  {
    RowSlice(block, t, 0, a);
    RowSlice(block, t, 8, b);
    forall i | 16 <= i < 24
      ensures Follows(Extend, Words24(block, t), i)
    {
      NextWord(block, t, i);
    }
    assert Recurrent(Extend, Words24(block, t));
    RowOfSlice(block, t, c);
  }

  lemma RowSlice(block: Bytes, t: nat, k: nat, a: seq<word>)
    requires |block| == BLOCK_BYTES && k <= 16 && Row(block, t + k, a)
    ensures Words24(block, t)[k..k + 8] == a
  {
    forall i | 0 <= i < 8
      ensures Words24(block, t)[k + i] == a[i]
    {
      assert Schedule(block, t + k + i) == a[i];
    }
  }

  lemma RowOfSlice(block: Bytes, t: nat, c: seq<word>)
    requires |block| == BLOCK_BYTES && Words24(block, t)[16..] == c
    ensures Row(block, t + 16, c)
  {
    forall i | 0 <= i < 8
      ensures Schedule(block, t + 16 + i) == c[i]
    {
      assert Words24(block, t)[16 + i] == c[i];
    }
  }

  lemma NextRounds(h: Working, block: Bytes, t: nat, v: Working, k: seq<word>, w: seq<word>, v': Working)
    requires |block| == BLOCK_BYTES && t + 8 <= ROUNDS && Row(block, t, w) && ROUND_CONSTANTS[t..t + 8] == k
    requires RoundsTo(h, block, t) == v && Leads(Round, v, k, w, v')
    ensures RoundsTo(h, block, t + 8) == v'
  {
    var s := RoundsInARow(h, block, t, w);
  }

  // The working variables before and after each of eight rounds.
  lemma RoundsInARow(h: Working, block: Bytes, t: nat, w: seq<word>) returns (s: seq<Working>)
    requires |block| == BLOCK_BYTES && t + 8 <= ROUNDS && Row(block, t, w)
    ensures InARow(Round, s, ROUND_CONSTANTS[t..t + 8], w)
    ensures s[0] == RoundsTo(h, block, t) && s[8] == RoundsTo(h, block, t + 8)
  {
    var k := ROUND_CONSTANTS[t..t + 8];
    s := Rounds9(h, block, t);
    forall i | 0 <= i < 8
      ensures s[i + 1] == Round(s[i], k[i], w[i])
    {
      NextRound(h, block, t + i, s[i], s[i + 1], k[i], w[i]);
    }
  }

  function Rounds9(h: Working, block: Bytes, t: nat): (s: seq<Working>)
    requires |block| == BLOCK_BYTES && t + 8 <= ROUNDS
    ensures |s| == 9 && forall i :: 0 <= i < 9 ==> s[i] == RoundsTo(h, block, t + i)
  {
    seq(9, i requires 0 <= i < 9 => RoundsTo(h, block, t + i))
  }

  lemma NextRound(h: Working, block: Bytes, t: nat, v: Working, v': Working, k: word, w: word)
    requires |block| == BLOCK_BYTES && t < ROUNDS && v == RoundsTo(h, block, t) && v' == RoundsTo(h, block, t + 1)
    requires k == ROUND_CONSTANTS[t] && w == Schedule(block, t)
    ensures v' == Round(v, k, w)
  {
  }

  // --- Digests ------------------------------------------------------------------------------

  // The digest, word by word.
  lemma DigestIs(hash: Working, a: Bytes, b: Bytes, c: Bytes, d: Bytes, e: Bytes, f: Bytes, g: Bytes, h: Bytes)
    requires a == WordBytes(hash.a) && b == WordBytes(hash.b) && c == WordBytes(hash.c) && d == WordBytes(hash.d)
    requires e == WordBytes(hash.e) && f == WordBytes(hash.f) && g == WordBytes(hash.g) && h == WordBytes(hash.h)
    ensures Concat(hash.Words()) == a + b + c + d + e + f + g + h
  {
    FourWords(hash.a, hash.b, hash.c, hash.d);
    FourWords(hash.e, hash.f, hash.g, hash.h);
    ConcatJoins([hash.a, hash.b, hash.c, hash.d], [hash.e, hash.f, hash.g, hash.h]);
    assert hash.Words() == [hash.a, hash.b, hash.c, hash.d] + [hash.e, hash.f, hash.g, hash.h];
    JoinFours(Concat(hash.Words()), a + b + c + d, e, f, g, h);
  }

  lemma JoinFours(b: Bytes, p: Bytes, e: Bytes, f: Bytes, g: Bytes, h: Bytes)
    requires b == p + (e + f + g + h)
    ensures b == p + e + f + g + h
  {
  }

  lemma FourWords(a: word, b: word, c: word, d: word)
    ensures Concat([a, b, c, d]) == WordBytes(a) + WordBytes(b) + WordBytes(c) + WordBytes(d)
  {
    var ws := [a, b, c, d];
    ConcatNext(ws, 0);
    ConcatNext(ws, 1);
    ConcatNext(ws, 2);
    ConcatNext(ws, 3);
    JoinFour(Concat(ws[..0]), Concat(ws[..1]), Concat(ws[..2]), Concat(ws[..3]), Concat(ws[..4]),
             WordBytes(a), WordBytes(b), WordBytes(c), WordBytes(d));
    assert ws[..4] == ws;
  }

  lemma JoinFour(p0: Bytes, p1: Bytes, p2: Bytes, p3: Bytes, p4: Bytes, a: Bytes, b: Bytes, c: Bytes, d: Bytes)
    requires p0 == [] && p1 == p0 + a && p2 == p1 + b && p3 == p2 + c && p4 == p3 + d
    ensures p4 == a + b + c + d
  {
  }

  lemma HashOfOne(message: Bytes, padded: Bytes, hash: Working)
    requires |padded| == BLOCK_BYTES && Pad(message) == padded && Compress(INITIAL_HASH, padded) == hash
    ensures Sha256(message) == Concat(hash.Words())
  {
    ZeroBytesIsLeast(|message|, 0);
    HashOneBlock(padded);
  }

  lemma HashOneBlock(padded: Bytes)
    requires |padded| == BLOCK_BYTES
    ensures HashBlocks(padded, 1) == Compress(INITIAL_HASH, padded)
  {
    assert padded[0..64] == padded;
    assert HashBlocks(padded, 0) == INITIAL_HASH;
  }

  lemma HashOfTwo(message: Bytes, a: seq<word>, b: seq<word>)
    requires |a| == |b| == 16 && Pad(message) == Concat(a + b)
    ensures Sha256(message) == Concat(Compress(Compress(INITIAL_HASH, Concat(a)), Concat(b)).Words())
  {
    ZeroBytesIsLeast(|message|, 0);
    ConcatJoins(a, b);
    HashTwoBlocks(Concat(a), Concat(b));
  }

  lemma HashTwoBlocks(a: Bytes, b: Bytes)
    requires |a| == |b| == BLOCK_BYTES
    ensures HashBlocks(a + b, 2) == Compress(Compress(INITIAL_HASH, a), b)
  {
    assert (a + b)[0..64] == a && (a + b)[64..128] == b;
    assert HashBlocks(a + b, 0) == INITIAL_HASH;
    assert HashBlocks(a + b, 1) == Compress(INITIAL_HASH, a);
  }
}
