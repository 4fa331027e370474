/** `load` of src/pygli.cpp, over the texture that the texture library's file
    reader hands it: reject an empty texture, classify the format, build the
    shape [height, width, channels], and either reinterpret the storage as
    elements of the format's kind or, for the 16-bit floating-point formats,
    view it as 16-bit words and convert them to float32 with the batch
    `half_to_float`. */
module Decoder {
  import opened Formats
  import opened Catalog
  import opened HalfBatch

  /** Width (x), height (y) and depth (z) of the texture's base level. */
  datatype Extent = Extent(x: nat, y: nat, z: nat)

  /** What the file reader returns: no data (the file could not be read), or a
      texture with its format, base-level extent and storage bytes. */
  datatype Texture = NoData | Texture(format: Format, extent: Extent, storage: seq<bv8>)

  datatype LoadError = EmptyTexture | UnrecognisedFormat

  datatype Result<T> = Ok(value: T) | Err(error: LoadError)

  /** The buffer of a returned array: the texture's bytes reinterpreted as
      elements of the array's kind, or a buffer of float32 bit patterns
      allocated by the half conversion. */
  datatype Buffer = Reinterpreted(bytes: seq<bv8>) | Decoded(words: seq<bv32>)

  /** A NumPy array: element kind, shape and buffer. */
  datatype NDArray = NDArray(kind: ElemKind, shape: seq<nat>, buffer: Buffer)

  /** The buffer holds exactly one element of the array's kind per index of
      its shape. */
  predicate WellSized(a: NDArray)
  {
    match a.buffer
    case Reinterpreted(bytes) => |bytes| == Product(a.shape) * Size(a.kind)
    case Decoded(words) => a.kind == F32 && |words| == Product(a.shape)
  }

  /** The storage holds at least the base level: one texel of the format per
      pixel of the first image. The texture library guarantees this; the
      loader relies on it without checking, and only for the formats it
      accepts, since it reads no storage before rejecting the others. */
  predicate HoldsBaseLevel(tex: Texture)
  {
    tex.Texture? && tex.format.Plain? && Classify(tex.format).Some? ==>
      tex.extent.x * tex.extent.y * TexelBytes(tex.format.name) <= |tex.storage|
  }

  /** `py::array_t<T>(shape, data)`: the first Product(shape) elements of kind
      `kind` of the storage. */
  function View(kind: ElemKind, shape: seq<nat>, storage: seq<bv8>): (a: NDArray)
    requires Product(shape) * Size(kind) <= |storage|
    ensures WellSized(a) && a.kind == kind && a.shape == shape
    ensures a.buffer.Reinterpreted? && a.buffer.bytes <= storage
  {
    NDArray(kind, shape, Reinterpreted(storage[..Product(shape) * Size(kind)]))
  }

  /** The i-th 16-bit word of the storage in host byte order (least
      significant byte first). */
  function HostHalf(storage: seq<bv8>, i: nat): (w: bv16)
    requires 2 * i + 1 < |storage|
    ensures (w & 0xFF) as bv8 == storage[2 * i] && (w >> 8) as bv8 == storage[2 * i + 1]
  {
    ((storage[2 * i + 1] as bv16) << 8) | (storage[2 * i] as bv16)
  }

  /** The elements of a `uint16_t` array of `count` elements viewing the storage. */
  function HalfWords(storage: seq<bv8>, count: nat): (halves: seq<bv16>)
    requires 2 * count <= |storage|
    ensures |halves| == count
    ensures forall i :: 0 <= i < count ==>
      (halves[i] & 0xFF) as bv8 == storage[2 * i] && (halves[i] >> 8) as bv8 == storage[2 * i + 1]
    ensures forall i :: 0 <= i < count ==> halves[i] == HostHalf(storage, i)
  {
    seq(count, i requires 0 <= i < count => HostHalf(storage, i))
  }

  /** `half_to_float(py::array_t<uint16_t>(shape, data))`: the float32 array of
      the same shape whose elements are the conversions of the storage's
      16-bit words. */
  function DecodedView(conv: bv16 -> bv32, shape: seq<nat>, storage: seq<bv8>): (a: NDArray)
    requires Product(shape) * 2 <= |storage|
    ensures WellSized(a) && a.kind == F32 && a.shape == shape && a.buffer.Decoded?
    ensures forall i :: 0 <= i < Product(shape) ==> a.buffer.words[i] == conv(HostHalf(storage, i))
  {
    NDArray(F32, shape, Decoded(DecodeHalves(conv, HalfWords(storage, Product(shape)))))
  }

  /** Element count of a [height, width, channels] shape times an element size. */
  lemma ShapeBytes(y: nat, x: nat, c: nat, s: nat)
    ensures Product([y, x, c]) * s == x * y * (c * s)
  {
    assert [y, x, c][1..] == [x, c];
    assert [x, c][1..] == [c];
    assert [c][1..] == [];
    assert Product([c]) == c;
    assert Product([x, c]) == x * c;
    assert Product([y, x, c]) == y * (x * c);
    calc {
      y * (x * c) * s;
      == { assert y * (x * c) == x * y * c; }
      x * y * c * s;
      == x * y * (c * s);
    }
  }

  /** Bytes the loader reads from the storage for an accepted format. */
  function ReadBytes(tex: Texture): nat
    requires tex.Texture? && Classify(tex.format).Some?
  {
    var d := Classify(tex.format).value;
    Product([tex.extent.y, tex.extent.x, d.channels]) * Size(d.kind)
  }

  /** The loader reads exactly the base level of the storage, and so stays
      inside every storage the texture library produces. */
  lemma LoadStaysInBounds(tex: Texture)
    requires tex.Texture? && Classify(tex.format).Some?
    ensures tex.format.Plain?
    ensures ReadBytes(tex) == tex.extent.x * tex.extent.y * TexelBytes(tex.format.name)
    ensures HoldsBaseLevel(tex) ==> ReadBytes(tex) <= |tex.storage|
  {
    var d := Classify(tex.format).value;
    DescriptorCoversTexel(tex.format);
    ShapeBytes(tex.extent.y, tex.extent.x, d.channels, Size(d.kind));
  }

  /** `load`: the empty texture is refused, an unrecognised format is refused,
      and every accepted format gives an array of shape [height, width,
      channels] whose kind is the format's storage kind, float32 for the half
      formats. */
  function Load(conv: bv16 -> bv32, tex: Texture): (r: Result<NDArray>)
    requires HoldsBaseLevel(tex)
    ensures tex.NoData? ==> r == Err(EmptyTexture)
    ensures tex.Texture? && Classify(tex.format).None? ==> r == Err(UnrecognisedFormat)
    ensures tex.Texture? && Classify(tex.format).Some? ==> r.Ok?
    ensures r.Ok? ==> tex.Texture? && Classify(tex.format).Some? && WellSized(r.value)
    ensures r.Ok? ==> r.value.shape == [tex.extent.y, tex.extent.x, Classify(tex.format).value.channels]
    ensures r.Ok? ==> r.value.kind == if IsHalfFloat(tex.format) then F32 else Classify(tex.format).value.kind
  {
    if tex.NoData? then Err(EmptyTexture)
    else
      match Classify(tex.format)
      case None => Err(UnrecognisedFormat)
      case Some(d) =>
        var shape := [tex.extent.y, tex.extent.x, d.channels];
        LoadStaysInBounds(tex);
        OnlyHalfFormatsDecode(tex.format);
        if d.kind == Half16 then Ok(DecodedView(conv, shape, tex.storage))
        else Ok(View(d.kind, shape, tex.storage))
  }

  /** Every accepted format except the half formats yields the base level of
      the storage itself, reinterpreted. */
  lemma LoadReinterpretsStorage(conv: bv16 -> bv32, tex: Texture)
    requires HoldsBaseLevel(tex) && tex.Texture? && Classify(tex.format).Some?
    requires !IsHalfFloat(tex.format)
    ensures tex.format.Plain?
    ensures Load(conv, tex).Ok? && Load(conv, tex).value.buffer.Reinterpreted?
    ensures Load(conv, tex).value.buffer.bytes <= tex.storage
    ensures |Load(conv, tex).value.buffer.bytes| == tex.extent.x * tex.extent.y * TexelBytes(tex.format.name)
  {
    LoadStaysInBounds(tex);
    OnlyHalfFormatsDecode(tex.format);
  }

  /** The half formats yield a fresh float32 buffer whose i-th element is the
      conversion of the i-th 16-bit word of the storage. */
  lemma LoadDecodesHalves(conv: bv16 -> bv32, tex: Texture)
    requires HoldsBaseLevel(tex) && tex.Texture? && IsHalfFloat(tex.format)
    ensures Load(conv, tex).Ok? && Load(conv, tex).value.buffer.Decoded?
    ensures var words := Load(conv, tex).value.buffer.words;
      2 * |words| <= |tex.storage| &&
      |words| == tex.extent.y * tex.extent.x * Classify(tex.format).value.channels &&
      forall i :: 0 <= i < |words| ==> words[i] == conv(HostHalf(tex.storage, i))
  {
    var d := Classify(tex.format).value;
    LoadStaysInBounds(tex);
    OnlyHalfFormatsDecode(tex.format);
    ShapeBytes(tex.extent.y, tex.extent.x, d.channels, 1);
  }

  /** A successful load with the given kind and shape. */
  predicate LoadsAs(conv: bv16 -> bv32, t: Texture, kind: ElemKind, shape: seq<nat>)
  {
    HoldsBaseLevel(t) && Load(conv, t).Ok? && Load(conv, t).value.kind == kind && Load(conv, t).value.shape == shape
  }

  /** The package's tests: a 256x256 RGBA16 SFLOAT texture loads as a float32
      array of shape (256, 256, 4). */
  lemma LoadTestedHalfRgba(conv: bv16 -> bv32, storage: seq<bv8>)
    requires |storage| == 256 * 256 * 8
    ensures LoadsAs(conv, Texture(Plain(Name(RGBA, 16, SFLOAT, 16)), Extent(256, 256, 1), storage), F32, [256, 256, 4])
  {
    TestedCase(conv, Texture(Plain(Name(RGBA, 16, SFLOAT, 16)), Extent(256, 256, 1), storage));
  }

  /** The package's tests: a 256x256 RGBA8 UNORM texture loads as a uint8
      array of shape (256, 256, 4). */
  lemma LoadTestedByteRgba(conv: bv16 -> bv32, storage: seq<bv8>)
    requires |storage| == 256 * 256 * 4
    ensures LoadsAs(conv, Texture(Plain(Name(RGBA, 8, UNORM, 8)), Extent(256, 256, 1), storage), U8, [256, 256, 4])
  {
    TestedCase(conv, Texture(Plain(Name(RGBA, 8, UNORM, 8)), Extent(256, 256, 1), storage));
  }

  /** The package's tests: a 256x256 R8 UINT texture loads as a uint8 array of
      shape (256, 256, 1). */
  lemma LoadTestedByteRed(conv: bv16 -> bv32, storage: seq<bv8>)
    requires |storage| == 256 * 256
    ensures LoadsAs(conv, Texture(Plain(Name(R, 8, UINT, 8)), Extent(256, 256, 1), storage), U8, [256, 256, 1])
  {
    TestedCase(conv, Texture(Plain(Name(R, 8, UINT, 8)), Extent(256, 256, 1), storage));
  }

  /** Height comes first: a texture 2 pixels wide and 3 high in RGBA8 UNORM
      gives shape (3, 2, 4). */
  lemma LoadHeightFirst(conv: bv16 -> bv32, storage: seq<bv8>)
    requires |storage| == 2 * 3 * 4
    ensures LoadsAs(conv, Texture(Plain(Name(RGBA, 8, UNORM, 8)), Extent(2, 3, 1), storage), U8, [3, 2, 4])
  {
    TestedCase(conv, Texture(Plain(Name(RGBA, 8, UNORM, 8)), Extent(2, 3, 1), storage));
  }

  /** The package's tests: a file that cannot be read fails; so does a format
      without a case, such as a block-compressed one. */
  lemma LoadTestedFailures(conv: bv16 -> bv32, storage: seq<bv8>)
    ensures Load(conv, NoData) == Err(EmptyTexture)
    ensures Load(conv, Texture(Other(0), Extent(4, 4, 1), storage)) == Err(UnrecognisedFormat)
  {
  }

  lemma TestedCase(conv: bv16 -> bv32, t: Texture)
    requires t.Texture? && Classify(t.format).Some? && t.format.Plain?
    requires t.extent.x * t.extent.y * TexelBytes(t.format.name) <= |t.storage|
    ensures HoldsBaseLevel(t) && Load(conv, t).Ok?
    ensures Load(conv, t).value.shape == [t.extent.y, t.extent.x, Classify(t.format).value.channels]
    ensures Load(conv, t).value.kind == if IsHalfFloat(t.format) then F32 else Classify(t.format).value.kind
  {
  }
}
