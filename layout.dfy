/** The array steps at the end of ONNXInference.preprocess: scaling the
    8-bit samples to [0, 1], the per-channel mean/std normalisation, the
    transpose(2, 0, 1) from height x width x channel to channel-first, and
    the leading batch axis of np.expand_dims(axis=0). A numpy array is a
    nested sequence with explicit dimensions. Arithmetic is exact here
    where numpy computes in float32. */
module Layout {

  type Byte = x: int | 0 <= x < 256

  /** `a` is a d0 x d1 x d2 array. */
  predicate Is3D<T>(a: seq<seq<seq<T>>>, d0: nat, d1: nat, d2: nat)
  {
    |a| == d0 &&
    (forall i :: 0 <= i < d0 ==> |a[i]| == d1) &&
    (forall i, j :: 0 <= i < d0 && 0 <= j < d1 ==> |a[i][j]| == d2)
  }

  /** transpose(2, 0, 1) of an h x w x c array: element (ch, y, x) of the
      result is element (y, x, ch) of the input. */
  function ChannelsFirst<T>(a: seq<seq<seq<T>>>, h: nat, w: nat, c: nat): (r: seq<seq<seq<T>>>)
    requires Is3D(a, h, w, c)
    ensures Is3D(r, c, h, w)
    ensures forall ch, y, x :: 0 <= ch < c && 0 <= y < h && 0 <= x < w ==> r[ch][y][x] == a[y][x][ch]
  {
    seq(c, ch requires 0 <= ch < c =>
      seq(h, y requires 0 <= y < h =>
        seq(w, x requires 0 <= x < w => a[y][x][ch])))
  }

  /** transpose(1, 2, 0), the inverse permutation of axes. */
  function ChannelsLast<T>(b: seq<seq<seq<T>>>, c: nat, h: nat, w: nat): (r: seq<seq<seq<T>>>)
    requires Is3D(b, c, h, w)
    ensures Is3D(r, h, w, c)
    ensures forall y, x, ch :: 0 <= y < h && 0 <= x < w && 0 <= ch < c ==> r[y][x][ch] == b[ch][y][x]
  {
    seq(h, y requires 0 <= y < h =>
      seq(w, x requires 0 <= x < w =>
        seq(c, ch requires 0 <= ch < c => b[ch][y][x])))
  }

  lemma Is3DEqual<T>(a: seq<seq<seq<T>>>, b: seq<seq<seq<T>>>, d0: nat, d1: nat, d2: nat)
    requires Is3D(a, d0, d1, d2) && Is3D(b, d0, d1, d2)
    requires forall i, j, k :: 0 <= i < d0 && 0 <= j < d1 && 0 <= k < d2 ==> a[i][j][k] == b[i][j][k]
    ensures a == b
  {
    forall i | 0 <= i < d0
      ensures a[i] == b[i]
    {
      forall j | 0 <= j < d1
        ensures a[i][j] == b[i][j]
      {
      }
    }
  }

  /** The transpose loses nothing: undoing it gives the input back. */
  lemma ChannelsFirstLast<T>(a: seq<seq<seq<T>>>, h: nat, w: nat, c: nat)
    requires Is3D(a, h, w, c)
    ensures ChannelsLast(ChannelsFirst(a, h, w, c), c, h, w) == a
  {
    Is3DEqual(ChannelsLast(ChannelsFirst(a, h, w, c), c, h, w), a, h, w, c);
  }

  /** The transpose duplicates nothing: every channel-first array is the
      transpose of exactly one input. */
  lemma ChannelsLastFirst<T>(b: seq<seq<seq<T>>>, c: nat, h: nat, w: nat)
    requires Is3D(b, c, h, w)
    ensures ChannelsFirst(ChannelsLast(b, c, h, w), h, w, c) == b
  {
    Is3DEqual(ChannelsFirst(ChannelsLast(b, c, h, w), h, w, c), b, c, h, w);
  }

  /** The ImageNet statistics of preprocess, for channels R, G, B. */
  const Mean: seq<real> := [0.485, 0.456, 0.406]
  const Std: seq<real> := [0.229, 0.224, 0.225]

  /** One sample after `/ 255.0` and `(x - mean) / std`. */
  function NormalizeSample(ch: nat, v: Byte): real
    requires ch < 3
  {
    (v as real / 255.0 - Mean[ch]) / Std[ch]
  }

  /** The normalisation is undone by multiplying back and adding the mean,
      so distinct samples stay distinct; and it keeps the order of samples. */
  lemma NormalizeSampleInvertible(ch: nat, v: Byte, u: Byte)
    requires ch < 3
    ensures (NormalizeSample(ch, v) * Std[ch] + Mean[ch]) * 255.0 == v as real
    ensures v < u ==> NormalizeSample(ch, v) < NormalizeSample(ch, u)
  {
    var s, m := Std[ch], Mean[ch];
    assert s > 0.0;
    var n := v as real / 255.0 - m;
    assert NormalizeSample(ch, v) * s == n;
    if v < u {
      var n' := u as real / 255.0 - m;
      assert n < n';
      assert NormalizeSample(ch, u) * s == n';
      assert NormalizeSample(ch, v) * s < NormalizeSample(ch, u) * s;
    }
  }

  /** The normalised h x w x 3 array. */
  function Normalize(a: seq<seq<seq<Byte>>>, h: nat, w: nat): (r: seq<seq<seq<real>>>)
    requires Is3D(a, h, w, 3)
    ensures Is3D(r, h, w, 3)
    ensures forall y, x, ch :: 0 <= y < h && 0 <= x < w && 0 <= ch < 3 ==> r[y][x][ch] == NormalizeSample(ch, a[y][x][ch])
  {
    seq(h, y requires 0 <= y < h =>
      seq(w, x requires 0 <= x < w =>
        seq(3, ch requires 0 <= ch < 3 => NormalizeSample(ch, a[y][x][ch]))))
  }

  /** The input tensor built from a cropped RGB image of h x w pixels: shape
      (1, 3, h, w), with entry [0][ch][y][x] the normalised sample of channel
      ch at row y, column x. */
  function ToInputTensor(a: seq<seq<seq<Byte>>>, h: nat, w: nat): (t: seq<seq<seq<seq<real>>>>)
    requires Is3D(a, h, w, 3)
    ensures |t| == 1 && Is3D(t[0], 3, h, w)
    ensures forall ch, y, x :: 0 <= ch < 3 && 0 <= y < h && 0 <= x < w ==> t[0][ch][y][x] == NormalizeSample(ch, a[y][x][ch])
  {
    [ChannelsFirst(Normalize(a, h, w), h, w, 3)]
  }

  /** Reading the tensor back in height x width x channel order gives the
      normalised image: no sample is dropped, moved or duplicated. */
  lemma ToInputTensorRoundTrip(a: seq<seq<seq<Byte>>>, h: nat, w: nat)
    requires Is3D(a, h, w, 3)
    ensures ChannelsLast(ToInputTensor(a, h, w)[0], 3, h, w) == Normalize(a, h, w)
  {
    ChannelsFirstLast(Normalize(a, h, w), h, w, 3);
  }
}
