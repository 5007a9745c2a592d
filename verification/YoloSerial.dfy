/** The byte format of the YOLO plugin: what `serialize` writes, and what the byte constructor reads back. Floats are
    kept as their 32-bit patterns; words are stored with the low byte first. */
module YoloSerial {

  type byte = x: int | 0 <= x < 256
  type uint32 = x: int | 0 <= x < 0x1_0000_0000
  type uint64 = x: int | 0 <= x < 0x1_0000_0000_0000_0000
  type int32 = x: int | -0x8000_0000 <= x < 0x8000_0000

  datatype TensorInfo = TensorInfo(blobName: string, gridSizeX: uint32, gridSizeY: uint32, numBBoxes: uint32,
                                   scaleXY: uint32, anchors: seq<uint32>, mask: seq<int32>)

  datatype YoloLayer = YoloLayer(netWidth: uint32, netHeight: uint32, numClasses: uint32, newCoords: uint32,
                                 outputSize: uint64, tensors: seq<TensorInfo>)

  datatype Parsed<T> = Short | Got(value: T, rest: seq<byte>)

  // ---------------------------------------------------------------------------------------------
  // Words

  function Bytes(v: nat, n: nat): (b: seq<byte>)
    ensures |b| == n
  {
    if n == 0 then [] else [v % 256] + Bytes(v / 256, n - 1)
  }

  function Value(b: seq<byte>): nat {
    if b == [] then 0 else b[0] + 256 * Value(b[1..])
  }

  function Pow256(n: nat): nat { if n == 0 then 1 else 256 * Pow256(n - 1) }

  lemma {:induction false} ValueOfBytes(v: nat, n: nat)
    requires v < Pow256(n)
    ensures Value(Bytes(v, n)) == v
  {
    if n == 0 {
    } else {
      ValueOfBytes(v / 256, n - 1);
      assert Bytes(v, n)[1..] == Bytes(v / 256, n - 1);
    }
  }

  lemma {:induction false} ValueBound(b: seq<byte>)
    ensures Value(b) < Pow256(|b|)
  {
    if b == [] {
    } else {
      ValueBound(b[1..]);
    }
  }

  lemma WordSizes()
    ensures Pow256(4) == 0x1_0000_0000 && Pow256(8) == 0x1_0000_0000_0000_0000
  {
    assert Pow256(2) == 0x1_0000 && Pow256(4) == 256 * 256 * Pow256(2);
    assert Pow256(6) == 256 * 256 * Pow256(4) && Pow256(8) == 256 * 256 * Pow256(6);
  }

  function Word32(v: uint32): (b: seq<byte>) ensures |b| == 4 { Bytes(v, 4) }

  function Word64(v: uint64): (b: seq<byte>) ensures |b| == 8 { Bytes(v, 8) }

  /** Two's complement. */
  function WordInt(v: int32): (b: seq<byte>) ensures |b| == 4 { Bytes(if v < 0 then v + 0x1_0000_0000 else v, 4) }

  function Read32(s: seq<byte>): (r: Parsed<uint32>) {
    if |s| < 4 then Short
    else
      WordSizes();
      ValueBound(s[..4]);
      Got(Value(s[..4]), s[4..])
  }

  function Read64(s: seq<byte>): (r: Parsed<uint64>) {
    if |s| < 8 then Short
    else
      WordSizes();
      ValueBound(s[..8]);
      Got(Value(s[..8]), s[8..])
  }

  function ReadInt(s: seq<byte>): (r: Parsed<int32>) {
    match Read32(s)
    case Short => Short
    case Got(v, rest) => Got(if v >= 0x8000_0000 then v - 0x1_0000_0000 else v, rest)
  }

  lemma Read32Word(v: uint32, rest: seq<byte>)
    ensures Read32(Word32(v) + rest) == Got(v, rest)
  {
    WordSizes();
    ValueOfBytes(v, 4);
    assert (Word32(v) + rest)[..4] == Word32(v) && (Word32(v) + rest)[4..] == rest;
  }

  lemma Read64Word(v: uint64, rest: seq<byte>)
    ensures Read64(Word64(v) + rest) == Got(v, rest)
  {
    WordSizes();
    ValueOfBytes(v, 8);
    assert (Word64(v) + rest)[..8] == Word64(v) && (Word64(v) + rest)[8..] == rest;
  }

  lemma ReadIntWord(v: int32, rest: seq<byte>)
    ensures ReadInt(WordInt(v) + rest) == Got(v, rest)
  {
    Read32Word(if v < 0 then v + 0x1_0000_0000 else v, rest);
  }

  // ---------------------------------------------------------------------------------------------
  // What is written

  /** The conversion of a size to `uint`. */
  function Truncated(n: nat): uint32 { n % 0x1_0000_0000 }

  function Words(v: seq<uint32>): (b: seq<byte>) ensures |b| == 4 * |v| {
    if v == [] then [] else Words(v[..|v| - 1]) + Word32(v[|v| - 1])
  }

  function IntWords(v: seq<int32>): (b: seq<byte>) ensures |b| == 4 * |v| {
    if v == [] then [] else IntWords(v[..|v| - 1]) + WordInt(v[|v| - 1])
  }

  function GridWords(t: TensorInfo): (b: seq<byte>)
    ensures |b| == 16
  {
    Word32(t.gridSizeX) + Word32(t.gridSizeY) + Word32(t.numBBoxes) + Word32(t.scaleXY)
  }

  function AnchorBlock(v: seq<uint32>): (b: seq<byte>)
    ensures |b| == 4 + 4 * Truncated(|v|)
  {
    Word32(Truncated(|v|)) + Words(v[..Truncated(|v|)])
  }

  function MaskBlock(v: seq<int32>): (b: seq<byte>)
    ensures |b| == 4 + 4 * Truncated(|v|)
  {
    Word32(Truncated(|v|)) + IntWords(v[..Truncated(|v|)])
  }

  function EncodedTensor(t: TensorInfo): (b: seq<byte>)
    ensures |b| == 16 + (4 + 4 * Truncated(|t.anchors|)) + (4 + 4 * Truncated(|t.mask|))
  {
    GridWords(t) + AnchorBlock(t.anchors) + MaskBlock(t.mask)
  }

  function EncodedTensors(ts: seq<TensorInfo>): seq<byte> {
    if ts == [] then [] else EncodedTensors(ts[..|ts| - 1]) + EncodedTensor(ts[|ts| - 1])
  }

  function Header(y: YoloLayer): (b: seq<byte>)
    ensures |b| == 24
  {
    Word32(y.netWidth) + Word32(y.netHeight) + Word32(y.numClasses) + Word32(y.newCoords) + Word64(y.outputSize)
  }

  function TensorBlock(ts: seq<TensorInfo>): seq<byte> {
    Word32(Truncated(|ts|)) + EncodedTensors(ts[..Truncated(|ts|)])
  }

  function Encoded(y: YoloLayer): seq<byte> { Header(y) + TensorBlock(y.tensors) }

  // ---------------------------------------------------------------------------------------------
  // What is read

  function ReadWords(s: seq<byte>, n: nat, done: seq<uint32>): Parsed<seq<uint32>>
    decreases n
  {
    if n == 0 then Got(done, s)
    else
      match Read32(s)
      case Short => Short
      case Got(v, rest) => ReadWords(rest, n - 1, done + [v])
  }

  function ReadInts(s: seq<byte>, n: nat, done: seq<int32>): Parsed<seq<int32>>
    decreases n
  {
    if n == 0 then Got(done, s)
    else
      match ReadInt(s)
      case Short => Short
      case Got(v, rest) => ReadInts(rest, n - 1, done + [v])
  }

  function ReadAnchors(s: seq<byte>): Parsed<seq<uint32>> {
    match Read32(s)
    case Short => Short
    case Got(n, rest) => ReadWords(rest, n, [])
  }

  function ReadMask(s: seq<byte>): Parsed<seq<int32>> {
    match Read32(s)
    case Short => Short
    case Got(n, rest) => ReadInts(rest, n, [])
  }

  /** The block name is not stored. */
  function ReadTensor(s: seq<byte>): Parsed<TensorInfo> {
    match Read32(s)
    case Short => Short
    case Got(x, s1) =>
      match Read32(s1)
      case Short => Short
      case Got(y, s2) =>
        match Read32(s2)
        case Short => Short
        case Got(n, s3) =>
          match Read32(s3)
          case Short => Short
          case Got(scale, s4) =>
            match ReadAnchors(s4)
            case Short => Short
            case Got(anchors, s5) =>
              match ReadMask(s5)
              case Short => Short
              case Got(mask, s6) => Got(TensorInfo("", x, y, n, scale, anchors, mask), s6)
  }

  function ReadTensors(s: seq<byte>, n: nat, done: seq<TensorInfo>): Parsed<seq<TensorInfo>>
    decreases n
  {
    if n == 0 then Got(done, s)
    else
      match ReadTensor(s)
      case Short => Short
      case Got(t, rest) => ReadTensors(rest, n - 1, done + [t])
  }

  function ReadTensorList(s: seq<byte>): Parsed<seq<TensorInfo>> {
    match Read32(s)
    case Short => Short
    case Got(n, rest) => ReadTensors(rest, n, [])
  }

  function Decoded(s: seq<byte>): Parsed<YoloLayer> {
    match Read32(s)
    case Short => Short
    case Got(w, s1) =>
      match Read32(s1)
      case Short => Short
      case Got(h, s2) =>
        match Read32(s2)
        case Short => Short
        case Got(classes, s3) =>
          match Read32(s3)
          case Short => Short
          case Got(coords, s4) =>
            match Read64(s4)
            case Short => Short
            case Got(size, s5) =>
              match ReadTensorList(s5)
              case Short => Short
              case Got(tensors, s6) => Got(YoloLayer(w, h, classes, coords, size, tensors), s6)
  }

  // ---------------------------------------------------------------------------------------------
  // Round trip

  lemma {:induction false} WordsFront(v: seq<uint32>)
    requires v != []
    ensures Words(v) == Word32(v[0]) + Words(v[1..])
  {
    if |v| > 1 {
      WordsFront(v[..|v| - 1]);
      assert v[..|v| - 1][1..] == v[1..][..|v[1..]| - 1];
    } else {
      assert v[1..] == [] && v[..0] == [];
    }
  }

  lemma {:induction false} IntWordsFront(v: seq<int32>)
    requires v != []
    ensures IntWords(v) == WordInt(v[0]) + IntWords(v[1..])
  {
    if |v| > 1 {
      IntWordsFront(v[..|v| - 1]);
      assert v[..|v| - 1][1..] == v[1..][..|v[1..]| - 1];
    } else {
      assert v[1..] == [] && v[..0] == [];
    }
  }

  lemma {:induction false} ReadWordsBack(v: seq<uint32>, rest: seq<byte>, done: seq<uint32>)
    ensures ReadWords(Words(v) + rest, |v|, done) == Got(done + v, rest)
  {
    if v == [] {
      assert Words(v) + rest == rest && done + v == done;
    } else {
      WordsFront(v);
      assert Words(v) + rest == Word32(v[0]) + (Words(v[1..]) + rest);
      Read32Word(v[0], Words(v[1..]) + rest);
      ReadWordsBack(v[1..], rest, done + [v[0]]);
      assert done + [v[0]] + v[1..] == done + v;
    }
  }

  lemma {:induction false} ReadIntsBack(v: seq<int32>, rest: seq<byte>, done: seq<int32>)
    ensures ReadInts(IntWords(v) + rest, |v|, done) == Got(done + v, rest)
  {
    if v == [] {
      assert IntWords(v) + rest == rest && done + v == done;
    } else {
      IntWordsFront(v);
      assert IntWords(v) + rest == WordInt(v[0]) + (IntWords(v[1..]) + rest);
      ReadIntWord(v[0], IntWords(v[1..]) + rest);
      ReadIntsBack(v[1..], rest, done + [v[0]]);
      assert done + [v[0]] + v[1..] == done + v;
    }
  }

  lemma ReadAnchorsBack(v: seq<uint32>, n: uint32, rest: seq<byte>)
    requires |v| == n
    ensures ReadAnchors(Word32(n) + Words(v) + rest) == Got(v, rest)
  {
    assert Word32(n) + Words(v) + rest == Word32(n) + (Words(v) + rest);
    Read32Word(n, Words(v) + rest);
    ReadWordsBack(v, rest, []);
    assert [] + v == v;
  }

  lemma ReadMaskBack(v: seq<int32>, n: uint32, rest: seq<byte>)
    requires |v| == n
    ensures ReadMask(Word32(n) + IntWords(v) + rest) == Got(v, rest)
  {
    assert Word32(n) + IntWords(v) + rest == Word32(n) + (IntWords(v) + rest);
    Read32Word(n, IntWords(v) + rest);
    ReadIntsBack(v, rest, []);
    assert [] + v == v;
  }

  /** What comes back: the name is lost, and a list is cut to its size modulo 2^32. */
  function ClippedTensor(t: TensorInfo): TensorInfo {
    t.(blobName := "", anchors := t.anchors[..Truncated(|t.anchors|)], mask := t.mask[..Truncated(|t.mask|)])
  }

  function ClippedTensors(ts: seq<TensorInfo>): (r: seq<TensorInfo>)
    ensures |r| == |ts| && forall i :: 0 <= i < |ts| ==> r[i] == ClippedTensor(ts[i])
  {
    seq(|ts|, i requires 0 <= i < |ts| => ClippedTensor(ts[i]))
  }

  function Clipped(y: YoloLayer): YoloLayer {
    y.(tensors := ClippedTensors(y.tensors[..Truncated(|y.tensors|)]))
  }

  lemma ReadTensorBack(t: TensorInfo, rest: seq<byte>)
    ensures ReadTensor(EncodedTensor(t) + rest) == Got(ClippedTensor(t), rest)
  {
    var a, m := Truncated(|t.anchors|), Truncated(|t.mask|);
    var anchors, mask := t.anchors[..a], t.mask[..m];
    var s6 := Word32(m) + IntWords(mask) + rest;
    var s5 := Word32(a) + Words(anchors) + s6;
    var s4 := Word32(t.scaleXY) + s5;
    var s3 := Word32(t.numBBoxes) + s4;
    var s2 := Word32(t.gridSizeY) + s3;
    assert GridWords(t) + s5 == Word32(t.gridSizeX) + s2;
    Joined(GridWords(t) + AnchorBlock(t.anchors), MaskBlock(t.mask), rest);
    Joined(GridWords(t), AnchorBlock(t.anchors), s6);
    Read32Word(t.gridSizeX, s2);
    Read32Word(t.gridSizeY, s3);
    Read32Word(t.numBBoxes, s4);
    Read32Word(t.scaleXY, s5);
    ReadAnchorsBack(anchors, a, s6);
    ReadMaskBack(mask, m, rest);
  }

  lemma Joined(a: seq<byte>, b: seq<byte>, c: seq<byte>)
    ensures a + b + c == a + (b + c)
  {
  }

  lemma {:induction false} TensorsFront(ts: seq<TensorInfo>)
    requires ts != []
    ensures EncodedTensors(ts) == EncodedTensor(ts[0]) + EncodedTensors(ts[1..])
  {
    if |ts| > 1 {
      TensorsFront(ts[..|ts| - 1]);
      assert ts[..|ts| - 1][1..] == ts[1..][..|ts[1..]| - 1];
      Joined(EncodedTensor(ts[0]), EncodedTensors(ts[..|ts| - 1][1..]), EncodedTensor(ts[|ts| - 1]));
    } else {
      assert ts[1..] == [] && ts[..0] == [];
      assert EncodedTensors([]) == [];
    }
  }

  lemma ClippedFront(ts: seq<TensorInfo>, done: seq<TensorInfo>)
    requires ts != []
    ensures done + [ClippedTensor(ts[0])] + ClippedTensors(ts[1..]) == done + ClippedTensors(ts)
  {
  }

  lemma {:induction false} ReadTensorsBack(ts: seq<TensorInfo>, rest: seq<byte>, done: seq<TensorInfo>)
    ensures ReadTensors(EncodedTensors(ts) + rest, |ts|, done) == Got(done + ClippedTensors(ts), rest)
  {
    if ts == [] {
      assert EncodedTensors(ts) + rest == rest && done + ClippedTensors(ts) == done;
    } else {
      TensorsFront(ts);
      Joined(EncodedTensor(ts[0]), EncodedTensors(ts[1..]), rest);
      ReadTensorBack(ts[0], EncodedTensors(ts[1..]) + rest);
      ReadTensorsBack(ts[1..], rest, done + [ClippedTensor(ts[0])]);
      ClippedFront(ts, done);
    }
  }

  lemma ReadTensorListBack(ts: seq<TensorInfo>, n: uint32, rest: seq<byte>)
    requires |ts| == n
    ensures ReadTensorList(Word32(n) + EncodedTensors(ts) + rest) == Got(ClippedTensors(ts), rest)
  {
    Joined(Word32(n), EncodedTensors(ts), rest);
    Read32Word(n, EncodedTensors(ts) + rest);
    ReadTensorsBack(ts, rest, []);
    NothingBefore(ClippedTensors(ts));
  }

  lemma NothingBefore(ts: seq<TensorInfo>)
    ensures [] + ts == ts
  {
  }

  /** Reading what was written, for every layer and whatever bytes follow. */
  lemma DecodeOfEncode(y: YoloLayer, rest: seq<byte>)
    ensures Decoded(Encoded(y) + rest) == Got(Clipped(y), rest)
  {
    var n := Truncated(|y.tensors|);
    var s5 := Word32(n) + EncodedTensors(y.tensors[..n]) + rest;
    var s4 := Word64(y.outputSize) + s5;
    var s3 := Word32(y.newCoords) + s4;
    var s2 := Word32(y.numClasses) + s3;
    var s1 := Word32(y.netHeight) + s2;
    assert Header(y) + s5 == Word32(y.netWidth) + s1;
    Joined(Header(y), TensorBlock(y.tensors), rest);
    Read32Word(y.netWidth, s1);
    Read32Word(y.netHeight, s2);
    Read32Word(y.numClasses, s3);
    Read32Word(y.newCoords, s4);
    Read64Word(y.outputSize, s5);
    ReadTensorListBack(y.tensors[..n], n, rest);
  }

  function NamelessTensors(ts: seq<TensorInfo>): (r: seq<TensorInfo>)
    ensures |r| == |ts| && forall i :: 0 <= i < |ts| ==> r[i] == ts[i].(blobName := "")
  {
    seq(|ts|, i requires 0 <= i < |ts| => ts[i].(blobName := ""))
  }

  /** The same layer without the names. */
  function Nameless(y: YoloLayer): YoloLayer { y.(tensors := NamelessTensors(y.tensors)) }

  ghost predicate Countable(t: TensorInfo) { |t.anchors| < 0x1_0000_0000 && |t.mask| < 0x1_0000_0000 }

  /** Every list size fits the 32-bit counter that is stored for it. */
  ghost predicate Representable(y: YoloLayer) {
    |y.tensors| < 0x1_0000_0000 && forall i :: 0 <= i < |y.tensors| ==> Countable(y.tensors[i])
  }

  lemma ClippedCountable(t: TensorInfo)
    ensures ClippedTensor(t) == t.(blobName := "") <==> Countable(t)
  {
    if Countable(t) {
      assert t.anchors[..|t.anchors|] == t.anchors && t.mask[..|t.mask|] == t.mask;
    }
  }

  lemma ClippedIsNameless(y: YoloLayer)
    ensures Clipped(y) == Nameless(y) <==> Representable(y)
  {
    var c, n := ClippedTensors(y.tensors[..Truncated(|y.tensors|)]), NamelessTensors(y.tensors);
    TruncatedFits(|y.tensors|);
    if |y.tensors| < 0x1_0000_0000 {
      assert y.tensors[..|y.tensors|] == y.tensors;
      forall i | 0 <= i < |y.tensors| ensures c[i] == n[i] <==> Countable(y.tensors[i]) {
        ClippedCountable(y.tensors[i]);
      }
    } else {
      assert |c| != |n|;
    }
  }

  lemma TruncatedFits(n: nat)
    ensures Truncated(n) <= n && (Truncated(n) == n <==> n < 0x1_0000_0000)
  {
  }

  /** The round trip gives back everything but the names exactly when the sizes fit their counters. */
  lemma RoundTripIff(y: YoloLayer)
    ensures Decoded(Encoded(y)) == Got(Nameless(y), []) <==> Representable(y)
  {
    DecodeOfEncode(y, []);
    assert Encoded(y) + [] == Encoded(y);
    ClippedIsNameless(y);
  }

  const LONG_LIST: seq<uint32> := seq(0x1_0000_0000, i => 0)

  /** One anchor too many for the counter: the list comes back empty. */
  lemma LongListIsLost(y: YoloLayer)
    requires y.tensors == [TensorInfo("", 1, 1, 1, 1, LONG_LIST, [])]
    ensures Decoded(Encoded(y)).Got? && Decoded(Encoded(y)) != Got(Nameless(y), [])
    ensures Decoded(Encoded(y)).value.tensors == [TensorInfo("", 1, 1, 1, 1, [], [])]
  {
    RoundTripIff(y);
    assert !Countable(y.tensors[0]);
    DecodeOfEncode(y, []);
    assert Encoded(y) + [] == Encoded(y);
  }

  // ---------------------------------------------------------------------------------------------
  // The size

  /** The size that the plugin announces: it counts the whole lists, but as many tensors as the counter says. */
  function TensorSize(t: TensorInfo): nat { 4 + 4 + 4 + 4 + (4 + 4 * |t.anchors|) + (4 + 4 * |t.mask|) }

  function TensorSizes(ts: seq<TensorInfo>): nat {
    if ts == [] then 0 else TensorSizes(ts[..|ts| - 1]) + TensorSize(ts[|ts| - 1])
  }

  function SerializationSize(y: YoloLayer): nat {
    4 + 4 + 4 + 4 + 8 + 4 + TensorSizes(y.tensors[..Truncated(|y.tensors|)])
  }

  method GetSerializationSize(y: YoloLayer) returns (total: nat)
    ensures total == SerializationSize(y)
  {
    total := 4 + 4 + 4 + 4 + 8;
    var n := Truncated(|y.tensors|);
    total := total + 4;
    for i := 0 to n
      invariant total == 28 + TensorSizes(y.tensors[..i])
    {
      assert y.tensors[..i + 1][..i] == y.tensors[..i];
      var t := y.tensors[i];
      total := total + 4 + 4 + 4 + 4;
      total := total + 4 + 4 * |t.anchors|;
      total := total + 4 + 4 * |t.mask|;
    }
  }

  lemma TensorLength(t: TensorInfo)
    ensures |EncodedTensor(t)| <= TensorSize(t)
    ensures |EncodedTensor(t)| == TensorSize(t) <==> Countable(t)
  {
    TruncatedFits(|t.anchors|);
    TruncatedFits(|t.mask|);
  }

  lemma TensorsLength(ts: seq<TensorInfo>)
    requires ts != []
    ensures |EncodedTensors(ts)| == |EncodedTensors(ts[..|ts| - 1])| + |EncodedTensor(ts[|ts| - 1])|
    ensures |EncodedTensors(ts[..|ts| - 1])| <= |EncodedTensors(ts)|
  {
  }

  ghost predicate AllCountable(ts: seq<TensorInfo>) { forall t :: t in ts ==> Countable(t) }

  lemma AllCountableStep(ts: seq<TensorInfo>)
    requires ts != []
    ensures AllCountable(ts) <==> AllCountable(ts[..|ts| - 1]) && Countable(ts[|ts| - 1])
  {
    assert ts == ts[..|ts| - 1] + [ts[|ts| - 1]];
  }

  lemma {:induction false} TensorLengths(ts: seq<TensorInfo>)
    ensures |EncodedTensors(ts)| <= TensorSizes(ts)
    ensures |EncodedTensors(ts)| == TensorSizes(ts) <==> AllCountable(ts)
  {
    if ts == [] {
    } else {
      TensorLengths(ts[..|ts| - 1]);
      TensorLength(ts[|ts| - 1]);
      TensorsLength(ts);
      AllCountableStep(ts);
    }
  }

  /** The announced size is enough, and it is exact when the sizes fit their counters. */
  lemma SizeIsExact(y: YoloLayer)
    ensures |Encoded(y)| <= SerializationSize(y)
    ensures Representable(y) ==> |Encoded(y)| == SerializationSize(y)
  {
    TensorLengths(y.tensors[..Truncated(|y.tensors|)]);
  }

  // ---------------------------------------------------------------------------------------------
  // The moving pointer

  /** The write pointer into a caller's buffer: `out` is what was written since `start` of the buffer, which held
      `before`. */
  class Writer {
    const buffer: array<byte>
    var pos: nat
    ghost const before: seq<byte>
    ghost var out: seq<byte>

    ghost predicate Valid()
      reads this, buffer
    {
      && pos == |out| <= |before| == buffer.Length
      && buffer[..] == out + before[pos..]
    }

    ghost function Room(): int reads this { buffer.Length - pos }

    constructor (buffer: array<byte>)
      ensures Valid() && out == [] && this.buffer == buffer && before == buffer[..]
    {
      this.buffer, pos := buffer, 0;
      before, out := buffer[..], [];
    }

    /** Stores a word and moves past it; the bytes beyond are untouched. */
    method Put(word: seq<byte>)
      requires Valid() && |word| <= Room()
      modifies this`pos, this`out, buffer
      ensures Valid() && out == old(out) + word && Room() == old(Room()) - |word|
    {
      for i := 0 to |word|
        invariant pos == old(pos) && out == old(out)
        invariant forall k :: 0 <= k < buffer.Length ==>
                    buffer[k] == if pos <= k < pos + i then word[k - pos] else old(buffer[k])
      {
        buffer[pos + i] := word[i];
      }
      pos := pos + |word|;
      out := out + word;
    }

    method PutWords(v: seq<uint32>, n: uint32)
      requires Valid() && n <= |v| && 4 * n <= Room()
      modifies this`pos, this`out, buffer
      ensures Valid() && out == old(out) + Words(v[..n]) && Room() == old(Room()) - 4 * n
    {
      assert out + Words(v[..0]) == out;
      for j := 0 to n
        invariant Valid() && out == old(out) + Words(v[..j]) && Room() == old(Room()) - 4 * j
      {
        assert v[..j + 1][..j] == v[..j];
        Joined(old(out), Words(v[..j]), Word32(v[j]));
        Put(Word32(v[j]));
      }
    }

    method PutInts(v: seq<int32>, n: uint32)
      requires Valid() && n <= |v| && 4 * n <= Room()
      modifies this`pos, this`out, buffer
      ensures Valid() && out == old(out) + IntWords(v[..n]) && Room() == old(Room()) - 4 * n
    {
      assert out + IntWords(v[..0]) == out;
      for j := 0 to n
        invariant Valid() && out == old(out) + IntWords(v[..j]) && Room() == old(Room()) - 4 * j
      {
        assert v[..j + 1][..j] == v[..j];
        Joined(old(out), IntWords(v[..j]), WordInt(v[j]));
        Put(WordInt(v[j]));
      }
    }

    method PutGrid(t: TensorInfo)
      requires Valid() && 16 <= Room()
      modifies this`pos, this`out, buffer
      ensures Valid() && out == old(out) + GridWords(t) && Room() == old(Room()) - 16
    {
      Put(Word32(t.gridSizeX));
      Put(Word32(t.gridSizeY));
      Put(Word32(t.numBBoxes));
      Put(Word32(t.scaleXY));
    }

    method PutAnchors(v: seq<uint32>)
      requires Valid() && |AnchorBlock(v)| <= Room()
      modifies this`pos, this`out, buffer
      ensures Valid() && out == old(out) + AnchorBlock(v) && Room() == old(Room()) - |AnchorBlock(v)|
    {
      Put(Word32(Truncated(|v|)));
      PutWords(v, Truncated(|v|));
      Joined(old(out), Word32(Truncated(|v|)), Words(v[..Truncated(|v|)]));
    }

    method PutMask(v: seq<int32>)
      requires Valid() && |MaskBlock(v)| <= Room()
      modifies this`pos, this`out, buffer
      ensures Valid() && out == old(out) + MaskBlock(v) && Room() == old(Room()) - |MaskBlock(v)|
    {
      Put(Word32(Truncated(|v|)));
      PutInts(v, Truncated(|v|));
      Joined(old(out), Word32(Truncated(|v|)), IntWords(v[..Truncated(|v|)]));
    }

    method PutTensor(t: TensorInfo)
      requires Valid() && |EncodedTensor(t)| <= Room()
      modifies this`pos, this`out, buffer
      ensures Valid() && out == old(out) + EncodedTensor(t) && Room() == old(Room()) - |EncodedTensor(t)|
    {
      PutGrid(t);
      PutAnchors(t.anchors);
      PutMask(t.mask);
      Joined(old(out), GridWords(t), AnchorBlock(t.anchors));
      Joined(old(out), GridWords(t) + AnchorBlock(t.anchors), MaskBlock(t.mask));
    }

    method PutHeader(y: YoloLayer)
      requires Valid() && 24 <= Room()
      modifies this`pos, this`out, buffer
      ensures Valid() && out == old(out) + Header(y) && Room() == old(Room()) - 24
    {
      Put(Word32(y.netWidth));
      Put(Word32(y.netHeight));
      Put(Word32(y.numClasses));
      Put(Word32(y.newCoords));
      Put(Word64(y.outputSize));
    }

    method PutTensors(ts: seq<TensorInfo>, n: uint32)
      requires Valid() && n <= |ts| && |EncodedTensors(ts[..n])| <= Room()
      modifies this`pos, this`out, buffer
      ensures Valid() && out == old(out) + EncodedTensors(ts[..n])
    {
      assert out + EncodedTensors(ts[..0]) == out;
      for i := 0 to n
        invariant Valid() && out == old(out) + EncodedTensors(ts[..i])
        invariant Room() == old(Room()) - |EncodedTensors(ts[..i])|
      {
        assert ts[..i + 1][..i] == ts[..i];
        LengthGrows(ts, i + 1, n);
        Joined(old(out), EncodedTensors(ts[..i]), EncodedTensor(ts[i]));
        PutTensor(ts[i]);
      }
    }
  }

  lemma PrefixIsShorter(ts: seq<TensorInfo>, n: nat)
    requires 0 < n <= |ts|
    ensures |EncodedTensors(ts[..n - 1])| <= |EncodedTensors(ts[..n])|
  {
    assert ts[..n][..n - 1] == ts[..n - 1];
    TensorsLength(ts[..n]);
  }

  lemma {:induction false} LengthGrows(ts: seq<TensorInfo>, i: nat, n: nat)
    requires i <= n <= |ts|
    ensures |EncodedTensors(ts[..i])| <= |EncodedTensors(ts[..n])|
  {
    if i < n {
      LengthGrows(ts, i, n - 1);
      PrefixIsShorter(ts, n);
    }
  }

  /** Writes the layer into a buffer of at least the announced size, from the start on, and nothing beyond. */
  method Serialize(y: YoloLayer, buffer: array<byte>)
    requires buffer.Length >= SerializationSize(y)
    modifies buffer
    ensures |Encoded(y)| <= buffer.Length && buffer[..|Encoded(y)|] == Encoded(y)
    ensures buffer[|Encoded(y)|..] == old(buffer[|Encoded(y)|..])
  {
    SizeIsExact(y);
    var n := Truncated(|y.tensors|);
    var d := new Writer(buffer);
    d.PutHeader(y);
    d.Put(Word32(n));
    d.PutTensors(y.tensors, n);
    EncodedParts(y, n);
  }

  lemma EncodedParts(y: YoloLayer, n: uint32)
    requires n == Truncated(|y.tensors|)
    ensures [] + Header(y) + Word32(n) + EncodedTensors(y.tensors[..n]) == Encoded(y)
  {
    assert [] + Header(y) == Header(y);
    Joined(Header(y), Word32(n), EncodedTensors(y.tensors[..n]));
  }

  /** The read pointer into a caller's bytes. Nothing checks the length: a caller must hand over enough bytes. */
  class Reader {
    const data: seq<byte>
    var pos: nat

    ghost predicate Valid() reads this { pos <= |data| }

    function Rest(): seq<byte>
      requires Valid()
      reads this
    {
      data[pos..]
    }

    constructor (data: seq<byte>)
      ensures Valid() && Rest() == data
    {
      this.data, pos := data, 0;
    }

    method Get32() returns (v: uint32)
      requires Valid() && Read32(Rest()).Got?
      modifies this
      ensures Valid() && Read32(old(Rest())) == Got(v, Rest())
    {
      WordSizes();
      ValueBound(data[pos..pos + 4]);
      assert Rest()[..4] == data[pos..pos + 4];
      v := Value(data[pos..pos + 4]);
      pos := pos + 4;
    }

    method Get64() returns (v: uint64)
      requires Valid() && Read64(Rest()).Got?
      modifies this
      ensures Valid() && Read64(old(Rest())) == Got(v, Rest())
    {
      WordSizes();
      ValueBound(data[pos..pos + 8]);
      assert Rest()[..8] == data[pos..pos + 8];
      v := Value(data[pos..pos + 8]);
      pos := pos + 8;
    }

    method GetInt() returns (v: int32)
      requires Valid() && ReadInt(Rest()).Got?
      modifies this
      ensures Valid() && ReadInt(old(Rest())) == Got(v, Rest())
    {
      var w: int := Get32();
      v := if w >= 0x8000_0000 then w - 0x1_0000_0000 else w;
    }

    method GetAnchors() returns (r: seq<uint32>)
      requires Valid() && ReadAnchors(Rest()).Got?
      modifies this
      ensures Valid() && ReadAnchors(old(Rest())) == Got(r, Rest())
    {
      var n := Get32();
      r := [];
      for j := 0 to n
        invariant Valid() && ReadWords(Rest(), n - j, r) == ReadAnchors(old(Rest()))
      {
        var v := Get32();
        r := r + [v];
      }
    }

    method GetMask() returns (r: seq<int32>)
      requires Valid() && ReadMask(Rest()).Got?
      modifies this
      ensures Valid() && ReadMask(old(Rest())) == Got(r, Rest())
    {
      var n := Get32();
      r := [];
      for j := 0 to n
        invariant Valid() && ReadInts(Rest(), n - j, r) == ReadMask(old(Rest()))
      {
        var v := GetInt();
        r := r + [v];
      }
    }

    method GetTensor() returns (t: TensorInfo)
      requires Valid() && ReadTensor(Rest()).Got?
      modifies this
      ensures Valid() && ReadTensor(old(Rest())) == Got(t, Rest())
    {
      var x := Get32();
      var y := Get32();
      var n := Get32();
      var scale := Get32();
      var anchors := GetAnchors();
      var mask := GetMask();
      t := TensorInfo("", x, y, n, scale, anchors, mask);
    }

    method GetTensors() returns (r: seq<TensorInfo>)
      requires Valid() && ReadTensorList(Rest()).Got?
      modifies this
      ensures Valid() && ReadTensorList(old(Rest())) == Got(r, Rest())
    {
      var n := Get32();
      r := [];
      for i := 0 to n
        invariant Valid() && ReadTensors(Rest(), n - i, r) == ReadTensorList(old(Rest()))
      {
        var t := GetTensor();
        r := r + [t];
      }
    }
  }

  method Deserialize(data: seq<byte>) returns (y: YoloLayer)
    requires Decoded(data).Got?
    ensures y == Decoded(data).value
  {
    var d := new Reader(data);
    var w := d.Get32();
    var h := d.Get32();
    var classes := d.Get32();
    var coords := d.Get32();
    var size := d.Get64();
    var tensors := d.GetTensors();
    y := YoloLayer(w, h, classes, coords, size, tensors);
  }
}
