/** `load` of python/pygli.cpp, the earlier variant of the loader: the same
    switch, except that the four 16-bit floating-point formats are
    reinterpreted directly as float32 elements with no conversion. Its own
    comment marks this as wrong: the float32 view reads four bytes per channel
    from a storage that holds two. */
module LegacyLoader {
  import opened Formats
  import opened Catalog
  import opened HalfBatch
  import opened Decoder

  /** One case per `case gli::FORMAT_...` of the earlier switch. */
  function ClassifyLegacy(f: Format): (r: Option<Descriptor>)
    ensures r.Some? ==> r.value.kind != Half16
  {
    match f
    case Plain(Name(R, 8, UNORM, 8)) => Some(Descriptor(1, U8))
    case Plain(Name(R, 8, SNORM, 8)) => Some(Descriptor(1, I8))
    case Plain(Name(R, 8, USCALED, 8)) => Some(Descriptor(1, U8))
    case Plain(Name(R, 8, SSCALED, 8)) => Some(Descriptor(1, I8))
    case Plain(Name(R, 8, UINT, 8)) => Some(Descriptor(1, U8))
    case Plain(Name(R, 8, SINT, 8)) => Some(Descriptor(1, I8))
    case Plain(Name(R, 8, SRGB, 8)) => Some(Descriptor(1, U8))
    case Plain(Name(RG, 8, UNORM, 8)) => Some(Descriptor(2, U8))
    case Plain(Name(RG, 8, SNORM, 8)) => Some(Descriptor(2, I8))
    case Plain(Name(RG, 8, USCALED, 8)) => Some(Descriptor(2, U8))
    case Plain(Name(RG, 8, SSCALED, 8)) => Some(Descriptor(2, I8))
    case Plain(Name(RG, 8, UINT, 8)) => Some(Descriptor(2, U8))
    case Plain(Name(RG, 8, SINT, 8)) => Some(Descriptor(2, I8))
    case Plain(Name(RG, 8, SRGB, 8)) => Some(Descriptor(2, U8))
    case Plain(Name(RGB, 8, UNORM, 8)) => Some(Descriptor(3, U8))
    case Plain(Name(RGB, 8, SNORM, 8)) => Some(Descriptor(3, I8))
    case Plain(Name(RGB, 8, USCALED, 8)) => Some(Descriptor(3, U8))
    case Plain(Name(RGB, 8, SSCALED, 8)) => Some(Descriptor(3, I8))
    case Plain(Name(RGB, 8, UINT, 8)) => Some(Descriptor(3, U8))
    case Plain(Name(RGB, 8, SINT, 8)) => Some(Descriptor(3, I8))
    case Plain(Name(RGB, 8, SRGB, 8)) => Some(Descriptor(3, U8))
    case Plain(Name(BGR, 8, UNORM, 8)) => Some(Descriptor(3, U8))
    case Plain(Name(BGR, 8, SNORM, 8)) => Some(Descriptor(3, I8))
    case Plain(Name(BGR, 8, USCALED, 8)) => Some(Descriptor(3, U8))
    case Plain(Name(BGR, 8, SSCALED, 8)) => Some(Descriptor(3, I8))
    case Plain(Name(BGR, 8, UINT, 8)) => Some(Descriptor(3, U8))
    case Plain(Name(BGR, 8, SINT, 8)) => Some(Descriptor(3, I8))
    case Plain(Name(BGR, 8, SRGB, 8)) => Some(Descriptor(3, U8))
    case Plain(Name(RGBA, 8, UNORM, 8)) => Some(Descriptor(4, U8))
    case Plain(Name(RGBA, 8, SNORM, 8)) => Some(Descriptor(4, I8))
    case Plain(Name(RGBA, 8, USCALED, 8)) => Some(Descriptor(4, U8))
    case Plain(Name(RGBA, 8, SSCALED, 8)) => Some(Descriptor(4, I8))
    case Plain(Name(RGBA, 8, UINT, 8)) => Some(Descriptor(4, U8))
    case Plain(Name(RGBA, 8, SINT, 8)) => Some(Descriptor(4, I8))
    case Plain(Name(RGBA, 8, SRGB, 8)) => Some(Descriptor(4, U8))
    case Plain(Name(RGBA, 8, UNORM, 32)) => Some(Descriptor(4, U8))
    case Plain(Name(RGBA, 8, SNORM, 32)) => Some(Descriptor(4, I8))
    case Plain(Name(RGBA, 8, USCALED, 32)) => Some(Descriptor(4, U8))
    case Plain(Name(RGBA, 8, SSCALED, 32)) => Some(Descriptor(4, I8))
    case Plain(Name(RGBA, 8, UINT, 32)) => Some(Descriptor(4, U8))
    case Plain(Name(RGBA, 8, SINT, 32)) => Some(Descriptor(4, I8))
    case Plain(Name(RGBA, 8, SRGB, 32)) => Some(Descriptor(4, U8))
    case Plain(Name(R, 16, UNORM, 16)) => Some(Descriptor(1, U16))
    case Plain(Name(R, 16, SNORM, 16)) => Some(Descriptor(1, I16))
    case Plain(Name(R, 16, USCALED, 16)) => Some(Descriptor(1, U16))
    case Plain(Name(R, 16, SSCALED, 16)) => Some(Descriptor(1, I16))
    case Plain(Name(R, 16, UINT, 16)) => Some(Descriptor(1, U16))
    case Plain(Name(R, 16, SINT, 16)) => Some(Descriptor(1, I16))
    case Plain(Name(R, 16, SFLOAT, 16)) => Some(Descriptor(1, F32))
    case Plain(Name(RG, 16, UNORM, 16)) => Some(Descriptor(2, U16))
    case Plain(Name(RG, 16, SNORM, 16)) => Some(Descriptor(2, I16))
    case Plain(Name(RG, 16, USCALED, 16)) => Some(Descriptor(2, U16))
    case Plain(Name(RG, 16, SSCALED, 16)) => Some(Descriptor(2, I16))
    case Plain(Name(RG, 16, UINT, 16)) => Some(Descriptor(2, U16))
    case Plain(Name(RG, 16, SINT, 16)) => Some(Descriptor(2, I16))
    case Plain(Name(RG, 16, SFLOAT, 16)) => Some(Descriptor(2, F32))
    case Plain(Name(RGB, 16, UNORM, 16)) => Some(Descriptor(3, U16))
    case Plain(Name(RGB, 16, SNORM, 16)) => Some(Descriptor(3, I16))
    case Plain(Name(RGB, 16, USCALED, 16)) => Some(Descriptor(3, U16))
    case Plain(Name(RGB, 16, SSCALED, 16)) => Some(Descriptor(3, I16))
    case Plain(Name(RGB, 16, UINT, 16)) => Some(Descriptor(3, U16))
    case Plain(Name(RGB, 16, SINT, 16)) => Some(Descriptor(3, I16))
    case Plain(Name(RGB, 16, SFLOAT, 16)) => Some(Descriptor(3, F32))
    case Plain(Name(RGBA, 16, UNORM, 16)) => Some(Descriptor(4, U16))
    case Plain(Name(RGBA, 16, SNORM, 16)) => Some(Descriptor(4, I16))
    case Plain(Name(RGBA, 16, USCALED, 16)) => Some(Descriptor(4, U16))
    case Plain(Name(RGBA, 16, SSCALED, 16)) => Some(Descriptor(4, I16))
    case Plain(Name(RGBA, 16, UINT, 16)) => Some(Descriptor(4, U16))
    case Plain(Name(RGBA, 16, SINT, 16)) => Some(Descriptor(4, I16))
    case Plain(Name(RGBA, 16, SFLOAT, 16)) => Some(Descriptor(4, F32))
    case Plain(Name(R, 32, UINT, 32)) => Some(Descriptor(1, U32))
    case Plain(Name(R, 32, SINT, 32)) => Some(Descriptor(1, I32))
    case Plain(Name(R, 32, SFLOAT, 32)) => Some(Descriptor(1, F32))
    case Plain(Name(RG, 32, UINT, 32)) => Some(Descriptor(2, U32))
    case Plain(Name(RG, 32, SINT, 32)) => Some(Descriptor(2, I32))
    case Plain(Name(RG, 32, SFLOAT, 32)) => Some(Descriptor(2, F32))
    case Plain(Name(RGB, 32, UINT, 32)) => Some(Descriptor(3, U32))
    case Plain(Name(RGB, 32, SINT, 32)) => Some(Descriptor(3, I32))
    case Plain(Name(RGB, 32, SFLOAT, 32)) => Some(Descriptor(3, F32))
    case Plain(Name(RGBA, 32, UINT, 32)) => Some(Descriptor(4, U32))
    case Plain(Name(RGBA, 32, SINT, 32)) => Some(Descriptor(4, I32))
    case Plain(Name(RGBA, 32, SFLOAT, 32)) => Some(Descriptor(4, F32))
    case Plain(Name(R, 64, UINT, 64)) => Some(Descriptor(1, U64))
    case Plain(Name(R, 64, SINT, 64)) => Some(Descriptor(1, I64))
    case Plain(Name(R, 64, SFLOAT, 64)) => Some(Descriptor(1, F64))
    case Plain(Name(RG, 64, UINT, 64)) => Some(Descriptor(2, U64))
    case Plain(Name(RG, 64, SINT, 64)) => Some(Descriptor(2, I64))
    case Plain(Name(RG, 64, SFLOAT, 64)) => Some(Descriptor(2, F64))
    case Plain(Name(RGB, 64, UINT, 64)) => Some(Descriptor(3, U64))
    case Plain(Name(RGB, 64, SINT, 64)) => Some(Descriptor(3, I64))
    case Plain(Name(RGB, 64, SFLOAT, 64)) => Some(Descriptor(3, F64))
    case Plain(Name(RGBA, 64, UINT, 64)) => Some(Descriptor(4, U64))
    case Plain(Name(RGBA, 64, SINT, 64)) => Some(Descriptor(4, I64))
    case Plain(Name(RGBA, 64, SFLOAT, 64)) => Some(Descriptor(4, F64))
    case _ => None
  }

  /** The two switches agree on every format but the four half formats, where
      the earlier one gives float32 elements in place of half storage. */
  lemma LegacyAgreesOffHalf(f: Format)
    ensures !IsHalfFloat(f) ==> ClassifyLegacy(f) == Classify(f)
    ensures IsHalfFloat(f) ==>
      Classify(f).Some? && Classify(f).value.kind == Half16 &&
      ClassifyLegacy(f) == Some(Descriptor(Classify(f).value.channels, F32))
  {
  }

  /** Bytes the earlier loader reads from the storage for an accepted format. */
  function LegacyReadBytes(tex: Texture): nat
    requires tex.Texture? && ClassifyLegacy(tex.format).Some?
  {
    var d := ClassifyLegacy(tex.format).value;
    Product([tex.extent.y, tex.extent.x, d.channels]) * Size(d.kind)
  }

  /** The earlier loader's reinterpretation stays inside the storage. */
  predicate LegacyReadFits(tex: Texture)
  {
    tex.Texture? && ClassifyLegacy(tex.format).Some? ==> LegacyReadBytes(tex) <= |tex.storage|
  }

  /** `load` as the earlier variant has it: the same refusals and shape, and
      every accepted format, the half formats included, a reinterpretation of
      the storage's leading bytes. Its precondition is the bound the C++ code
      needs to stay inside the storage and does not check. */
  function LegacyLoad(tex: Texture): (r: Result<NDArray>)
    requires LegacyReadFits(tex)
    ensures tex.NoData? ==> r == Err(EmptyTexture)
    ensures tex.Texture? && ClassifyLegacy(tex.format).None? ==> r == Err(UnrecognisedFormat)
    ensures tex.Texture? && ClassifyLegacy(tex.format).Some? ==> r.Ok?
    ensures r.Ok? ==> tex.Texture? && ClassifyLegacy(tex.format).Some? && WellSized(r.value)
    ensures r.Ok? ==> r.value.shape == [tex.extent.y, tex.extent.x, ClassifyLegacy(tex.format).value.channels]
    ensures r.Ok? ==> r.value.kind == ClassifyLegacy(tex.format).value.kind
    ensures r.Ok? ==> r.value.buffer.Reinterpreted? && r.value.buffer.bytes <= tex.storage
  {
    if tex.NoData? then Err(EmptyTexture)
    else
      match ClassifyLegacy(tex.format)
      case None => Err(UnrecognisedFormat)
      case Some(d) => Ok(View(d.kind, [tex.extent.y, tex.extent.x, d.channels], tex.storage))
  }

  /** Off the half formats the two loaders return the same result on every
      texture the texture library can produce. */
  lemma LegacyLoadAgreesOffHalf(conv: bv16 -> bv32, tex: Texture)
    requires HoldsBaseLevel(tex)
    requires !(tex.Texture? && IsHalfFloat(tex.format))
    ensures LegacyReadFits(tex)
    ensures LegacyLoad(tex) == Load(conv, tex)
  {
    if tex.Texture? {
      LegacyAgreesOffHalf(tex.format);
      if Classify(tex.format).Some? {
        LoadStaysInBounds(tex);
        OnlyHalfFormatsDecode(tex.format);
      }
    }
  }

  /** On a half format the earlier loader gives the same shape and the same
      float32 kind as the current one, but its buffer is the storage's bytes
      read as float32, not the conversion of its 16-bit words. */
  lemma LegacyHalfSkipsConversion(conv: bv16 -> bv32, tex: Texture)
    requires HoldsBaseLevel(tex) && LegacyReadFits(tex)
    requires tex.Texture? && IsHalfFloat(tex.format)
    ensures LegacyLoad(tex).Ok? && Load(conv, tex).Ok?
    ensures LegacyLoad(tex).value.shape == Load(conv, tex).value.shape
    ensures LegacyLoad(tex).value.kind == Load(conv, tex).value.kind == F32
    ensures LegacyLoad(tex).value.buffer.Reinterpreted? && Load(conv, tex).value.buffer.Decoded?
  {
    LegacyAgreesOffHalf(tex.format);
    LoadDecodesHalves(conv, tex);
  }

  /** On a half format the earlier loader reads twice the bytes of the base
      level: four bytes per channel where the storage holds two. */
  lemma LegacyHalfReadsDouble(tex: Texture)
    requires tex.Texture? && IsHalfFloat(tex.format)
    ensures Classify(tex.format).Some? && ClassifyLegacy(tex.format).Some? && tex.format.Plain?
    ensures LegacyReadBytes(tex) == 2 * ReadBytes(tex)
    ensures ReadBytes(tex) == tex.extent.x * tex.extent.y * TexelBytes(tex.format.name)
  {
    LegacyAgreesOffHalf(tex.format);
    var c := Classify(tex.format).value.channels;
    ShapeBytes(tex.extent.y, tex.extent.x, c, 2);
    ShapeBytes(tex.extent.y, tex.extent.x, c, 4);
    LoadStaysInBounds(tex);
  }

  /** So on a non-empty half texture whose storage holds exactly its base
      level, the earlier loader reads past the end of the storage. */
  lemma LegacyHalfOverruns(tex: Texture)
    requires tex.Texture? && IsHalfFloat(tex.format) && tex.extent.x > 0 && tex.extent.y > 0
    requires |tex.storage| == tex.extent.x * tex.extent.y * TexelBytes(tex.format.name)
    ensures HoldsBaseLevel(tex)
    ensures !LegacyReadFits(tex)
  {
    LegacyHalfReadsDouble(tex);
    var texel := TexelBytes(tex.format.name);
    assert texel >= 2;
    DoubleExceeds(tex.extent.x, tex.extent.y, texel);
  }

  lemma DoubleExceeds(x: nat, y: nat, texel: nat)
    requires x > 0 && y > 0 && texel > 0
    ensures 2 * (x * y * texel) > x * y * texel
  {
    assert x * y > 0;
    assert x * y * texel > 0;
  }

  /** A one-pixel R16 SFLOAT texture holding the half 1.0 (bytes 00 3C): the
      earlier loader reads four bytes from a two-byte storage, the current one
      reads two and converts them. */
  lemma LegacyHalfOverrunExample(conv: bv16 -> bv32)
    ensures var t := Texture(Plain(Name(R, 16, SFLOAT, 16)), Extent(1, 1, 1), [0x00, 0x3C]);
      HoldsBaseLevel(t) && !LegacyReadFits(t) && LegacyReadBytes(t) == 4 &&
      ReadBytes(t) == 2 && Load(conv, t) == Ok(NDArray(F32, [1, 1, 1], Decoded([conv(0x3C00)])))
  {
    var t := Texture(Plain(Name(R, 16, SFLOAT, 16)), Extent(1, 1, 1), [0x00, 0x3C]);
    LegacyHalfOverruns(t);
    LegacyHalfReadsDouble(t);
    LoadDecodesHalves(conv, t);
    assert HostHalf(t.storage, 0) == 0x3C00;
    var a := Load(conv, t).value;
    assert a.kind == F32 && a.shape == [1, 1, 1];
    assert a.buffer.words == [conv(0x3C00)];
  }
}
