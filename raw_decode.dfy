/** Decoding of a Sentinel-1 raw `.dat` product into a square magnitude grid
    (`read_sentinel1_raw`). The file is a flat run of complex samples, each
    four bytes: a signed 16-bit in-phase word I followed by a signed 16-bit
    quadrature word Q, in the machine's (little-endian) byte order. At most
    ten million samples are read. The magnitudes of the samples read are laid
    out row-major in an s-by-s grid, s the integer square root of their count;
    the magnitudes that do not fill a whole row are dropped. */
module RawDecode {
  import opened Text

  type Byte = b: int | 0 <= b < 256

  /** Ten million samples: the read cap. */
  const MaxSamples: nat := 10_000_000

  const BytesPerSample: nat := 4

  datatype Sample = Sample(i: int, q: int)

  type Grid = seq<seq<nat>>

  // ---------------------------------------------------------------------
  // 16-bit words
  // ---------------------------------------------------------------------

  /** A little-endian signed 16-bit word (`np.int16` on the byte pair). */
  function Int16(lo: Byte, hi: Byte): (w: int)
    ensures -32768 <= w <= 32767
  {
    var u := lo + 256 * hi;
    if u >= 32768 then u - 65536 else u
  }

  /** The two bytes that store a signed 16-bit word. */
  function Int16Bytes(w: int): (b: seq<Byte>)
    requires -32768 <= w <= 32767
    ensures |b| == 2
  {
    var u := if w < 0 then w + 65536 else w;
    [u % 256, u / 256]
  }

  /** Decoding the stored bytes of a word gives the word back. */
  lemma Int16RoundTrip(w: int)
    requires -32768 <= w <= 32767
    ensures Int16(Int16Bytes(w)[0], Int16Bytes(w)[1]) == w
  {
  }

  /** Storing a decoded word gives the two bytes back. */
  lemma Int16BytesRoundTrip(lo: Byte, hi: Byte)
    ensures Int16Bytes(Int16(lo, hi)) == [lo, hi]
  {
  }

  // ---------------------------------------------------------------------
  // From bytes to samples
  // ---------------------------------------------------------------------

  /** `min(file_size // 4, 10_000_000)`: how many samples are read. */
  function SamplesToRead(fileSize: nat): (n: nat)
    ensures n <= MaxSamples && n * BytesPerSample <= fileSize
    ensures n == fileSize / BytesPerSample || n == MaxSamples
  {
    Min(fileSize / BytesPerSample, MaxSamples)
  }

  /** `np.frombuffer(raw, dtype=np.int16)`: consecutive byte pairs as words. */
  function Words(bytes: seq<Byte>): (w: seq<int>)
    requires |bytes| % 2 == 0
    ensures |w| == |bytes| / 2
    ensures forall k :: 0 <= k < |w| ==> w[k] == Int16(bytes[2 * k], bytes[2 * k + 1])
  {
    if bytes == [] then [] else [Int16(bytes[0], bytes[1])] + Words(bytes[2..])
  }

  /** `samples.reshape(-1, 2)` then `samples[:, 0] + 1j * samples[:, 1]`. */
  function Pairs(words: seq<int>): (s: seq<Sample>)
    requires |words| % 2 == 0
    ensures |s| == |words| / 2
    ensures forall k :: 0 <= k < |s| ==> s[k] == Sample(words[2 * k], words[2 * k + 1])
  {
    if words == [] then [] else [Sample(words[0], words[1])] + Pairs(words[2..])
  }

  /** The bytes actually read: the first four bytes per sample to read. */
  function BytesRead(file: seq<Byte>): seq<Byte> {
    file[..SamplesToRead(|file|) * BytesPerSample]
  }

  function DecodeSamples(file: seq<Byte>): seq<Sample> {
    Pairs(Words(BytesRead(file)))
  }

  /** The decoded samples: one per four bytes up to the cap, sample k being
      the word pair at bytes 4k..4k+3. The trailing 1-3 bytes and everything
      past the cap are not part of any sample. */
  lemma DecodeSamplesSpec(file: seq<Byte>)
    ensures |DecodeSamples(file)| == Min(|file| / 4, MaxSamples)
    ensures forall k :: 0 <= k < |DecodeSamples(file)| ==>
      4 * k + 3 < |file| &&
      DecodeSamples(file)[k] == Sample(Int16(file[4 * k], file[4 * k + 1]), Int16(file[4 * k + 2], file[4 * k + 3]))
    ensures forall k :: 0 <= k < |DecodeSamples(file)| ==>
      -32768 <= DecodeSamples(file)[k].i <= 32767 && -32768 <= DecodeSamples(file)[k].q <= 32767
  {
    var b := BytesRead(file);
    var w := Words(b);
    assert |w| == 2 * SamplesToRead(|file|);
    forall k | 0 <= k < |DecodeSamples(file)|
      ensures 4 * k + 3 < |file|
      ensures DecodeSamples(file)[k] == Sample(Int16(file[4 * k], file[4 * k + 1]), Int16(file[4 * k + 2], file[4 * k + 3]))
    {
      assert w[2 * k] == Int16(b[4 * k], b[4 * k + 1]);
      assert w[2 * k + 1] == Int16(b[4 * k + 2], b[4 * k + 3]);
    }
  }

  /** Only the bytes read matter: two files of the same sample count that
      agree on the bytes read decode to the same samples, whatever follows. */
  lemma DecodeReadsOnlyPrefix(f: seq<Byte>, g: seq<Byte>)
    requires SamplesToRead(|f|) == SamplesToRead(|g|)
    requires f[..SamplesToRead(|f|) * 4] == g[..SamplesToRead(|g|) * 4]
    ensures DecodeSamples(f) == DecodeSamples(g)
  {
  }

  // ---------------------------------------------------------------------
  // Magnitudes and the square grid
  // ---------------------------------------------------------------------

  /** The squared magnitude I*I + Q*Q of a sample; it orders samples exactly
      as `np.abs` does (the square root itself is not modelled). */
  function Power(s: Sample): nat {
    s.i * s.i + s.q * s.q
  }

  function Magnitudes(samples: seq<Sample>): (m: seq<nat>)
    ensures |m| == |samples|
    ensures forall k :: 0 <= k < |m| ==> m[k] == Power(samples[k])
  {
    seq(|samples|, k requires 0 <= k < |samples| => Power(samples[k]))
  }

  /** `int(np.sqrt(n))`, the integer square root. */
  function ISqrt(n: nat): (s: nat)
    ensures s * s <= n < (s + 1) * (s + 1)
  {
    ISqrtFrom(n, 0)
  }

  function ISqrtFrom(n: nat, s: nat): (r: nat)
    requires s * s <= n
    ensures r * r <= n < (r + 1) * (r + 1)
    decreases n - s
  {
    if (s + 1) * (s + 1) > n then s
    else
      assert s + 1 <= (s + 1) * (s + 1);
      ISqrtFrom(n, s + 1)
  }

  lemma SquareMonotone(a: nat, b: nat)
    requires a <= b
    ensures a * a <= b * b
  {
  }

  /** The bounds determine the integer square root uniquely. */
  lemma ISqrtUnique(n: nat, s: nat)
    requires s * s <= n < (s + 1) * (s + 1)
    ensures ISqrt(n) == s
  {
    var t := ISqrt(n);
    if t < s {
      SquareMonotone(t + 1, s);
    } else if s < t {
      SquareMonotone(s + 1, t);
    }
  }

  /** Row-major reshape of the first s*s values into s rows of s
      (`m[:s*s].reshape(s, s)`). */
  function Reshape(m: seq<nat>, s: nat): (g: Grid)
    requires s * s <= |m|
    ensures |g| == s
    ensures forall r :: 0 <= r < s ==> |g[r]| == s
  {
    seq(s, r requires 0 <= r < s => Row(m, s, r))
  }

  function Row(m: seq<nat>, s: nat, r: nat): (row: seq<nat>)
    requires s * s <= |m| && r < s
    ensures |row| == s
  {
    RowBound(r, s);
    m[r * s..r * s + s]
  }

  /** Cell (r, c) of the reshaped grid is value r*s + c. */
  lemma ReshapeAt(m: seq<nat>, s: nat, r: nat, c: nat)
    requires s * s <= |m| && r < s && c < s
    ensures r * s + c < |m| && Reshape(m, s)[r][c] == m[r * s + c]
  {
    RowBound(r, s);
  }

  lemma RowBound(r: nat, s: nat)
    requires r < s
    ensures 0 <= r * s && r * s + s <= s * s
  {
    assert (r + 1) * s <= s * s by { SquareMonotoneLeft(r + 1, s, s); }
  }

  lemma SquareMonotoneLeft(a: nat, b: nat, c: nat)
    requires a <= b
    ensures a * c <= b * c
  {
  }

  /** `read_sentinel1_raw`: `None` when the file cannot be read (every
      exception is caught and turned into `None`), otherwise the s-by-s grid
      of the first s*s magnitudes. */
  function ReadSentinel1Raw(file: Option<seq<Byte>>): Option<Grid> {
    match file
    case None => None
    case Some(bytes) =>
      var mags := Magnitudes(DecodeSamples(bytes));
      var s := ISqrt(|mags|);
      Some(Reshape(mags, s))
  }

  /** s is the integer square root of n. */
  predicate IsISqrt(s: nat, n: nat) {
    s * s <= n < (s + 1) * (s + 1)
  }

  /** The grid's shape: side s = floor(sqrt(n)) for the n samples read, so
      that n - s*s samples are dropped. */
  lemma ReadSentinel1RawShape(bytes: seq<Byte>)
    ensures ReadSentinel1Raw(Some(bytes)).Some?
    ensures var g := ReadSentinel1Raw(Some(bytes)).value;
      IsISqrt(|g|, Min(|bytes| / 4, MaxSamples)) &&
      forall r :: 0 <= r < |g| ==> |g[r]| == |g|
  {
    var mags := Magnitudes(DecodeSamples(bytes));
    assert |mags| == Min(|bytes| / 4, MaxSamples);
  }

  /** The grid's contents: cell (r, c) holds the power of sample r*s + c. */
  lemma ReadSentinel1RawCell(bytes: seq<Byte>, r: nat, c: nat)
    requires ReadSentinel1Raw(Some(bytes)).Some?
    requires r < |ReadSentinel1Raw(Some(bytes)).value| && c < |ReadSentinel1Raw(Some(bytes)).value|
    ensures var g := ReadSentinel1Raw(Some(bytes)).value;
      r * |g| + c < |DecodeSamples(bytes)| &&
      c < |g[r]| && g[r][c] == Power(DecodeSamples(bytes)[r * |g| + c])
  {
    var samples := DecodeSamples(bytes);
    var mags := Magnitudes(samples);
    var s := ISqrt(|mags|);
    ReshapeAt(mags, s, r, c);
  }

  /** A file that cannot be read yields `None`, and only such a file. */
  lemma ReadSentinel1RawFails(file: Option<seq<Byte>>)
    ensures ReadSentinel1Raw(file).None? <==> file.None?
  {
  }

  /** The zero-padding branch of the source (taken when the sample count is
      below s*s) can never run: s*s never exceeds the count. */
  lemma PaddingBranchUnreachable(n: nat)
    ensures n >= ISqrt(n) * ISqrt(n)
  {
  }

  /** Worked examples: 100 samples give a 10-by-10 grid using all of them;
      99 samples give 9-by-9 and drop 18. */
  lemma GridExamples()
    ensures ISqrt(100) == 10
    ensures ISqrt(99) == 9 && 99 - ISqrt(99) * ISqrt(99) == 18
    ensures ISqrt(10_000) == 100
  {
    ISqrtUnique(100, 10);
    ISqrtUnique(99, 9);
    ISqrtUnique(10_000, 100);
  }

  /** A file of 40,000 bytes holds 10,000 samples and decodes to a
      100-by-100 grid. */
  lemma FortyThousandBytes(bytes: seq<Byte>)
    requires |bytes| == 40_000
    ensures ReadSentinel1Raw(Some(bytes)).Some?
    ensures |ReadSentinel1Raw(Some(bytes)).value| == 100
  {
    GridExamples();
    assert |Magnitudes(DecodeSamples(bytes))| == 10_000 by { DecodeSamplesSpec(bytes); }
  }

  /** Files shorter than one sample decode to an empty (0-by-0) grid; the
      source raises no error for them. */
  lemma ShortFileEmptyGrid(bytes: seq<Byte>)
    requires |bytes| < 4
    ensures ReadSentinel1Raw(Some(bytes)) == Some([])
  {
    assert ISqrt(0) == 0;
  }
}
