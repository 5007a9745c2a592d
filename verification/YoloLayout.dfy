/** Where every field of a serialized layer lies: at which byte, in which order of bytes. */
module YoloLayout {
  import opened YoloSerial

  /** The four bytes at this place are the word v, low byte first. */
  ghost predicate WordAt(b: seq<byte>, at: nat, v: nat) {
    && at + 4 <= |b|
    && b[at] == v % 256 && b[at + 1] == v / 0x100 % 256 && b[at + 2] == v / 0x1_0000 % 256 && b[at + 3] == v / 0x100_0000 % 256
  }

  lemma {:induction false} ByteOf(v: nat, n: nat, k: nat)
    requires k < n
    ensures Pow256(k) > 0 && Bytes(v, n)[k] == v / Pow256(k) % 256
  {
    if k == 0 {
    } else {
      ByteOf(v / 256, n - 1, k - 1);
      assert Bytes(v, n)[k] == Bytes(v / 256, n - 1)[k - 1];
      DividedTwice(v, Pow256(k - 1));
    }
  }

  lemma DividedTwice(v: nat, d: nat)
    requires d > 0
    ensures 256 * d > 0 && v / 256 / d == v / (256 * d)
  {
    var q, r := v / 256, v % 256;
    var p, s := q / d, q % d;
    assert v == 256 * q + r && q == d * p + s;
    assert v == (256 * d) * p + (256 * s + r);
    assert 0 <= 256 * s + r < 256 * d;
    QuotientOf(v, 256 * d, p, 256 * s + r);
  }

  lemma QuotientOf(v: nat, d: nat, q: nat, r: nat)
    requires d > 0 && r < d && v == d * q + r
    ensures v / d == q
  {
    var q' := v / d;
    assert v == d * q' + v % d;
    if q' < q {
      Apart(d, q', q);
    } else if q < q' {
      Apart(d, q, q');
    }
  }

  lemma Apart(d: nat, q: nat, q': nat)
    requires q < q'
    ensures d * q + d <= d * q'
  {
    assert d * q' == d * q + d + d * (q' - q - 1);
    assert d * (q' - q - 1) >= 0;
  }

  lemma Powers()
    ensures Pow256(0) == 1 && Pow256(1) == 0x100 && Pow256(2) == 0x1_0000 && Pow256(3) == 0x100_0000
  {
    assert Pow256(3) == 256 * Pow256(2);
  }

  lemma WordIsAt(v: uint32)
    ensures WordAt(Word32(v), 0, v)
  {
    Powers();
    ByteOf(v, 4, 0);
    ByteOf(v, 4, 1);
    ByteOf(v, 4, 2);
    ByteOf(v, 4, 3);
  }

  /** A word inside a longer piece. */
  lemma WordInside(a: seq<byte>, b: seq<byte>, c: seq<byte>, at: nat, v: nat)
    requires WordAt(b, at, v)
    ensures WordAt(a + b + c, |a| + at, v)
  {
  }

  lemma WordBetween(a: seq<byte>, v: uint32, c: seq<byte>)
    ensures WordAt(a + Word32(v) + c, |a|, v)
  {
    WordIsAt(v);
    WordInside(a, Word32(v), c, 0, v);
  }

  // ---------------------------------------------------------------------------------------------
  // The fields of a tensor

  /** The word of a signed number. */
  function Unsigned(v: int32): uint32 { if v < 0 then v + 0x1_0000_0000 else v }

  lemma {:induction false} WordsAre(v: seq<uint32>, j: nat)
    requires j < |v|
    ensures WordAt(Words(v), 4 * j, v[j])
  {
    var n := |v| - 1;
    var front, last := Words(v[..n]), Word32(v[n]);
    assert Words(v) == front + last + [];
    if j == n {
      WordBetween(front, v[n], []);
    } else {
      WordsAre(v[..n], j);
      WordInside([], front, last, 4 * j, v[j]);
      assert [] + front + last == front + last + [];
    }
  }

  lemma {:induction false} IntWordsAre(v: seq<int32>, j: nat)
    requires j < |v|
    ensures WordAt(IntWords(v), 4 * j, Unsigned(v[j]))
  {
    var n := |v| - 1;
    var front, last := IntWords(v[..n]), Word32(Unsigned(v[n]));
    assert IntWords(v) == front + last + [];
    if j == n {
      WordBetween(front, Unsigned(v[n]), []);
    } else {
      IntWordsAre(v[..n], j);
      WordInside([], front, last, 4 * j, Unsigned(v[j]));
      assert [] + front + last == front + last + [];
    }
  }

  // --- pieces, and where they lie in a longer piece

  ghost predicate GridAt(b: seq<byte>, at: nat, t: TensorInfo) {
    WordAt(b, at, t.gridSizeX) && WordAt(b, at + 4, t.gridSizeY) && WordAt(b, at + 8, t.numBBoxes) && WordAt(b, at + 12, t.scaleXY)
  }

  /** The number of anchors, then the anchors. */
  ghost predicate AnchorsAt(b: seq<byte>, at: nat, v: seq<uint32>) {
    WordAt(b, at, |v|) && forall j :: 0 <= j < |v| ==> WordAt(b, at + 4 + 4 * j, v[j])
  }

  ghost predicate MaskAt(b: seq<byte>, at: nat, v: seq<int32>) {
    WordAt(b, at, |v|) && forall j :: 0 <= j < |v| ==> WordAt(b, at + 4 + 4 * j, Unsigned(v[j]))
  }

  /** The fields of a tensor: the grid, the anchors after their number, the mask after its number. */
  ghost predicate TensorAt(b: seq<byte>, at: nat, t: TensorInfo) {
    GridAt(b, at, t) && AnchorsAt(b, at + 16, t.anchors) && MaskAt(b, at + 20 + 4 * |t.anchors|, t.mask)
  }

  ghost predicate HeaderAt(b: seq<byte>, y: YoloLayer) {
    && WordAt(b, 0, y.netWidth) && WordAt(b, 4, y.netHeight) && WordAt(b, 8, y.numClasses) && WordAt(b, 12, y.newCoords)
    && WordAt(b, 16, y.outputSize % 0x1_0000_0000) && WordAt(b, 20, y.outputSize / 0x1_0000_0000)
  }

  lemma GridInside(a: seq<byte>, b: seq<byte>, c: seq<byte>, at: nat, t: TensorInfo)
    requires GridAt(b, at, t)
    ensures GridAt(a + b + c, |a| + at, t)
  {
    WordInside(a, b, c, at, t.gridSizeX);
    WordInside(a, b, c, at + 4, t.gridSizeY);
    WordInside(a, b, c, at + 8, t.numBBoxes);
    WordInside(a, b, c, at + 12, t.scaleXY);
  }

  lemma AnchorsInside(a: seq<byte>, b: seq<byte>, c: seq<byte>, at: nat, v: seq<uint32>)
    requires AnchorsAt(b, at, v)
    ensures AnchorsAt(a + b + c, |a| + at, v)
  {
    WordInside(a, b, c, at, |v|);
    forall j | 0 <= j < |v| ensures WordAt(a + b + c, |a| + at + 4 + 4 * j, v[j]) {
      WordInside(a, b, c, at + 4 + 4 * j, v[j]);
    }
  }

  lemma MaskInside(a: seq<byte>, b: seq<byte>, c: seq<byte>, at: nat, v: seq<int32>)
    requires MaskAt(b, at, v)
    ensures MaskAt(a + b + c, |a| + at, v)
  {
    WordInside(a, b, c, at, |v|);
    forall j | 0 <= j < |v| ensures WordAt(a + b + c, |a| + at + 4 + 4 * j, Unsigned(v[j])) {
      WordInside(a, b, c, at + 4 + 4 * j, Unsigned(v[j]));
    }
  }

  lemma TensorInside(a: seq<byte>, b: seq<byte>, c: seq<byte>, at: nat, t: TensorInfo)
    requires TensorAt(b, at, t)
    ensures TensorAt(a + b + c, |a| + at, t)
  {
    GridInside(a, b, c, at, t);
    AnchorsInside(a, b, c, at + 16, t.anchors);
    MaskInside(a, b, c, at + 20 + 4 * |t.anchors|, t.mask);
  }

  lemma Framed(a: seq<byte>, b: seq<byte>)
    ensures [] + a + b == a + b && a + b + [] == a + b
  {
  }

  // --- the pieces themselves

  /** Four words in a row. */
  lemma FourWords(w0: uint32, w1: uint32, w2: uint32, w3: uint32)
    ensures var b := Word32(w0) + Word32(w1) + Word32(w2) + Word32(w3);
            WordAt(b, 0, w0) && WordAt(b, 4, w1) && WordAt(b, 8, w2) && WordAt(b, 12, w3)
  {
    WordIsAt(w0);
    WordIsAt(w1);
    WordIsAt(w2);
    WordIsAt(w3);
  }

  lemma Counted(n: uint32, words: seq<byte>)
    ensures WordAt(Word32(n) + words, 0, n)
  {
    WordBetween([], n, words);
    Framed(Word32(n), words);
  }

  lemma InCounted(n: uint32, words: seq<byte>, at: nat, v: nat)
    requires WordAt(words, at, v)
    ensures WordAt(Word32(n) + words, 4 + at, v)
  {
    WordInside(Word32(n), words, [], at, v);
    Framed(Word32(n), words);
  }

  ghost predicate ListsAnchors(words: seq<byte>, v: seq<uint32>) {
    forall j :: 0 <= j < |v| ==> WordAt(words, 4 * j, v[j])
  }

  ghost predicate ListsMask(words: seq<byte>, v: seq<int32>) {
    forall j :: 0 <= j < |v| ==> WordAt(words, 4 * j, Unsigned(v[j]))
  }

  lemma AnchorsFrom(n: uint32, words: seq<byte>, v: seq<uint32>)
    requires n == |v| && ListsAnchors(words, v)
    ensures AnchorsAt(Word32(n) + words, 0, v)
  {
    Counted(n, words);
    forall j | 0 <= j < |v| ensures WordAt(Word32(n) + words, 0 + 4 + 4 * j, v[j]) {
      InCounted(n, words, 4 * j, v[j]);
    }
  }

  lemma MaskFrom(n: uint32, words: seq<byte>, v: seq<int32>)
    requires n == |v| && ListsMask(words, v)
    ensures MaskAt(Word32(n) + words, 0, v)
  {
    Counted(n, words);
    forall j | 0 <= j < |v| ensures WordAt(Word32(n) + words, 0 + 4 + 4 * j, Unsigned(v[j])) {
      InCounted(n, words, 4 * j, Unsigned(v[j]));
    }
  }

  lemma AnchorBlockIs(v: seq<uint32>, n: uint32)
    requires n == Truncated(|v|) && n == |v|
    ensures AnchorBlock(v) == Word32(n) + Words(v)
  {
    assert v[..n] == v;
  }

  lemma MaskBlockIs(v: seq<int32>, n: uint32)
    requires n == Truncated(|v|) && n == |v|
    ensures MaskBlock(v) == Word32(n) + IntWords(v)
  {
    assert v[..n] == v;
  }

  lemma AllWords(v: seq<uint32>)
    ensures ListsAnchors(Words(v), v)
  {
    forall j | 0 <= j < |v| ensures WordAt(Words(v), 4 * j, v[j]) {
      WordsAre(v, j);
    }
  }

  lemma AllIntWords(v: seq<int32>)
    ensures ListsMask(IntWords(v), v)
  {
    forall j | 0 <= j < |v| ensures WordAt(IntWords(v), 4 * j, Unsigned(v[j])) {
      IntWordsAre(v, j);
    }
  }

  lemma AnchorLayout(v: seq<uint32>)
    requires |v| < 0x1_0000_0000
    ensures AnchorsAt(AnchorBlock(v), 0, v) && |AnchorBlock(v)| == 4 + 4 * |v|
  {
    AllWords(v);
    AnchorsFrom(|v|, Words(v), v);
    TruncatedFits(|v|);
    AnchorBlockIs(v, |v|);
  }

  lemma MaskLayout(v: seq<int32>)
    requires |v| < 0x1_0000_0000
    ensures MaskAt(MaskBlock(v), 0, v) && |MaskBlock(v)| == 4 + 4 * |v|
  {
    AllIntWords(v);
    MaskFrom(|v|, IntWords(v), v);
    TruncatedFits(|v|);
    MaskBlockIs(v, |v|);
  }

  lemma ThreePieces(g: seq<byte>, a: seq<byte>, m: seq<byte>, t: TensorInfo)
    requires GridAt(g, 0, t) && AnchorsAt(a, 0, t.anchors) && MaskAt(m, 0, t.mask)
    requires |g| == 16 && |a| == 4 + 4 * |t.anchors|
    ensures TensorAt(g + a + m, 0, t)
  {
    GridInside([], g, a + m, 0, t);
    AnchorsInside(g, a, m, 0, t.anchors);
    MaskInside(g + a, m, [], 0, t.mask);
    assert [] + g + (a + m) == g + a + m && g + a + m + [] == g + a + m;
  }

  lemma TensorLayout(t: TensorInfo)
    requires Countable(t)
    ensures TensorAt(EncodedTensor(t), 0, t) && |EncodedTensor(t)| == 24 + 4 * |t.anchors| + 4 * |t.mask|
  {
    FourWords(t.gridSizeX, t.gridSizeY, t.numBBoxes, t.scaleXY);
    AnchorLayout(t.anchors);
    MaskLayout(t.mask);
    ThreePieces(GridWords(t), AnchorBlock(t.anchors), MaskBlock(t.mask), t);
  }

  lemma LongWord(v: uint64)
    ensures WordAt(Word64(v), 0, v % 0x1_0000_0000) && WordAt(Word64(v), 4, v / 0x1_0000_0000)
  {
    EightBytes(v);
    LowBytes(v);
    HighBytes(v);
  }

  lemma EightBytes(v: uint64)
    ensures var b := Word64(v);
            && b[0] == v % 256 && b[1] == v / 0x100 % 256 && b[2] == v / 0x1_0000 % 256 && b[3] == v / 0x100_0000 % 256
            && b[4] == v / 0x1_0000_0000 % 256 && b[5] == v / 0x100_0000_0000 % 256
            && b[6] == v / 0x1_0000_0000_0000 % 256 && b[7] == v / 0x100_0000_0000_0000 % 256
  {
    Powers();
    ByteOf(v, 8, 0);
    ByteOf(v, 8, 1);
    ByteOf(v, 8, 2);
    ByteOf(v, 8, 3);
    ByteOf(v, 8, 4);
    ByteOf(v, 8, 5);
    ByteOf(v, 8, 6);
    ByteOf(v, 8, 7);
  }

  lemma LowBytes(v: nat)
    ensures var w := v % 0x1_0000_0000;
            && w % 256 == v % 256 && w / 0x100 % 256 == v / 0x100 % 256 && w / 0x1_0000 % 256 == v / 0x1_0000 % 256
            && w / 0x100_0000 % 256 == v / 0x100_0000 % 256
  {
    var h, w := v / 0x1_0000_0000, v % 0x1_0000_0000;
    LowDigit(0x100_0000 * h, w, 0x100);
    LowDigit(0x1_0000 * h, w, 0x1_0000);
    LowDigit(0x100 * h, w, 0x100_0000);
    Multiple256(0x100_0000 * h, w);
    Multiple256(0x1_0000 * h, w / 0x100);
    Multiple256(0x100 * h, w / 0x1_0000);
    Multiple256(h, w / 0x100_0000);
  }

  lemma LowDigit(k: nat, w: nat, d: nat)
    requires d > 0
    ensures (d * k + w) / d == k + w / d
  {
    QuotientOf(d * k + w, d, k + w / d, w % d);
  }

  lemma Multiple256(k: nat, w: nat)
    ensures (256 * k + w) % 256 == w % 256
  {
  }

  lemma HighBytes(v: nat)
    ensures var w := v / 0x1_0000_0000;
            && w / 0x100 % 256 == v / 0x100_0000_0000 % 256 && w / 0x1_0000 % 256 == v / 0x1_0000_0000_0000 % 256
            && w / 0x100_0000 % 256 == v / 0x100_0000_0000_0000 % 256
  {
  }

  lemma HeaderLayout(y: YoloLayer)
    ensures HeaderAt(Header(y), y)
  {
    var words, size := Word32(y.netWidth) + Word32(y.netHeight) + Word32(y.numClasses) + Word32(y.newCoords), Word64(y.outputSize);
    FourWords(y.netWidth, y.netHeight, y.numClasses, y.newCoords);
    LongWord(y.outputSize);
    Framed(words, size);
    WordInside([], words, size, 0, y.netWidth);
    WordInside([], words, size, 4, y.netHeight);
    WordInside([], words, size, 8, y.numClasses);
    WordInside([], words, size, 12, y.newCoords);
    WordInside(words, size, [], 0, y.outputSize % 0x1_0000_0000);
    WordInside(words, size, [], 4, y.outputSize / 0x1_0000_0000);
  }

  lemma HeaderInside(b: seq<byte>, rest: seq<byte>, y: YoloLayer)
    requires HeaderAt(b, y)
    ensures HeaderAt(b + rest, y)
  {
    Framed(b, rest);
    WordInside([], b, rest, 0, y.netWidth);
    WordInside([], b, rest, 4, y.netHeight);
    WordInside([], b, rest, 8, y.numClasses);
    WordInside([], b, rest, 12, y.newCoords);
    WordInside([], b, rest, 16, y.outputSize % 0x1_0000_0000);
    WordInside([], b, rest, 20, y.outputSize / 0x1_0000_0000);
  }

  // ---------------------------------------------------------------------------------------------
  // The whole layer

  /** The bytes that the first i tensors take. */
  function TensorsBefore(ts: seq<TensorInfo>, i: nat): nat
    requires i <= |ts|
  {
    if i == 0 then 0 else TensorsBefore(ts, i - 1) + 24 + 4 * |ts[i - 1].anchors| + 4 * |ts[i - 1].mask|
  }

  lemma {:induction false} BeforeIsPrefix(ts: seq<TensorInfo>, i: nat)
    requires i < |ts|
    ensures TensorsBefore(ts[..|ts| - 1], i) == TensorsBefore(ts, i)
  {
    if i == 0 {
    } else {
      BeforeIsPrefix(ts, i - 1);
    }
  }

  lemma {:induction false} TensorsLength(ts: seq<TensorInfo>)
    requires forall t :: t in ts ==> Countable(t)
    ensures |EncodedTensors(ts)| == TensorsBefore(ts, |ts|)
  {
    if ts == [] {
    } else {
      var n := |ts| - 1;
      assert ts == ts[..n] + [ts[n]];
      TensorsLength(ts[..n]);
      TensorLayout(ts[n]);
      BeforeIsPrefix(ts, n);
    }
  }

  lemma SameTensor(b: seq<byte>, at: nat, b': seq<byte>, at': nat, t: TensorInfo)
    requires TensorAt(b, at, t) && b == b' && at == at'
    ensures TensorAt(b', at', t)
  {
  }

  lemma AppendedTensor(front: seq<byte>, last: seq<byte>, at: nat, t: TensorInfo)
    requires TensorAt(last, 0, t) && at == |front|
    ensures TensorAt(front + last, at, t)
  {
    TensorInside(front, last, [], 0, t);
    Framed(front, last);
    SameTensor(front + last + [], |front| + 0, front + last, at, t);
  }

  lemma FollowedTensor(front: seq<byte>, last: seq<byte>, at: nat, t: TensorInfo)
    requires TensorAt(front, at, t)
    ensures TensorAt(front + last, at, t)
  {
    TensorInside([], front, last, at, t);
    Framed(front, last);
    SameTensor([] + front + last, 0 + at, front + last, at, t);
  }

  lemma EncodedLast(ts: seq<TensorInfo>)
    requires ts != []
    ensures EncodedTensors(ts) == EncodedTensors(ts[..|ts| - 1]) + EncodedTensor(ts[|ts| - 1])
  {
  }

  lemma FrontLength(ts: seq<TensorInfo>)
    requires ts != [] && forall t :: t in ts ==> Countable(t)
    ensures |EncodedTensors(ts[..|ts| - 1])| == TensorsBefore(ts, |ts| - 1)
  {
    var n := |ts| - 1;
    assert ts == ts[..n] + [ts[n]];
    TensorsLength(ts[..n]);
    BeforeIsPrefix(ts, n);
  }

  lemma LastTensor(ts: seq<TensorInfo>, front: seq<byte>, last: seq<byte>)
    requires ts != [] && forall t :: t in ts ==> Countable(t)
    requires front == EncodedTensors(ts[..|ts| - 1]) && last == EncodedTensor(ts[|ts| - 1])
    ensures TensorAt(front + last, TensorsBefore(ts, |ts| - 1), ts[|ts| - 1])
  {
    FrontLength(ts);
    TensorLayout(ts[|ts| - 1]);
    AppendedTensor(front, last, TensorsBefore(ts, |ts| - 1), ts[|ts| - 1]);
  }

  lemma {:induction false} TensorsLayout(ts: seq<TensorInfo>, i: nat)
    requires (forall t :: t in ts ==> Countable(t)) && i < |ts|
    ensures TensorAt(EncodedTensors(ts), TensorsBefore(ts, i), ts[i])
  {
    var n := |ts| - 1;
    var front, last := EncodedTensors(ts[..n]), EncodedTensor(ts[n]);
    EncodedLast(ts);
    if i == n {
      LastTensor(ts, front, last);
    } else {
      assert ts == ts[..n] + [ts[n]];
      TensorsLayout(ts[..n], i);
      BeforeIsPrefix(ts, i);
      FollowedTensor(front, last, TensorsBefore(ts, i), ts[i]);
    }
  }

  ghost predicate LayerAt(b: seq<byte>, y: YoloLayer, i: nat) {
    && HeaderAt(b, y) && WordAt(b, 24, |y.tensors|)
    && (i < |y.tensors| ==> TensorAt(b, 28 + TensorsBefore(y.tensors, i), y.tensors[i]))
  }

  lemma EncodedIs(y: YoloLayer)
    requires |y.tensors| < 0x1_0000_0000
    ensures Encoded(y) == Header(y) + (Word32(|y.tensors|) + EncodedTensors(y.tensors))
  {
    TruncatedFits(|y.tensors|);
    var n := Truncated(|y.tensors|);
    assert y.tensors[..n] == y.tensors;
  }

  /** A serialized layer: five words and the two halves of the output size, low half first; at byte 24 the number of
      tensors; from byte 28 on the tensors, one after another. Every word has its low byte first. */
  lemma LayerLayout(y: YoloLayer, i: nat)
    requires Representable(y)
    ensures LayerAt(Encoded(y), y, i)
  {
    EncodedIs(y);
    HeaderLayout(y);
    if i < |y.tensors| {
      TensorsLayout(y.tensors, i);
    }
    FromParts(y, Header(y), |y.tensors|, EncodedTensors(y.tensors), i);
  }

  lemma FromParts(y: YoloLayer, h: seq<byte>, n: uint32, tensors: seq<byte>, i: nat)
    requires HeaderAt(h, y) && |h| == 24 && n == |y.tensors|
    requires i < n ==> TensorAt(tensors, TensorsBefore(y.tensors, i), y.tensors[i])
    ensures LayerAt(h + (Word32(n) + tensors), y, i)
  {
    HeaderInside(h, Word32(n) + tensors, y);
    WordBetween(h, n, tensors);
    Joined(h, Word32(n), tensors);
    if i < n {
      TensorInside(h + Word32(n), tensors, [], TensorsBefore(y.tensors, i), y.tensors[i]);
      Framed(h + Word32(n), tensors);
    }
  }
}
