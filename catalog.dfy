/** The format switch of `load` in src/pygli.cpp: each accepted format fixes a
    channel count and a storage kind; the 16-bit floating-point formats are
    the only ones whose storage kind (`Half16`) calls for a decode step. */
module Catalog {
  import opened Formats

  /** One case per `case gli::FORMAT_...` of the switch, in its order; every
      other format reaches `default` and is unrecognised. */
  function Classify(f: Format): (r: Option<Descriptor>)
    ensures r.Some? ==> 1 <= r.value.channels <= 4
  {
    match f
    case Plain(Name(R, 8, UNORM, 8)) => Some(Descriptor(1, U8))
    case Plain(Name(R, 8, SNORM, 8)) => Some(Descriptor(1, I8))
    case Plain(Name(R, 8, USCALED, 8)) => Some(Descriptor(1, U8))
    case Plain(Name(R, 8, SSCALED, 8)) => Some(Descriptor(1, I8))
    case Plain(Name(R, 8, UINT, 8)) => Some(Descriptor(1, U8))
    case Plain(Name(R, 8, SINT, 8)) => Some(Descriptor(1, I8))
    case Plain(Name(R, 8, SRGB, 8)) => Some(Descriptor(1, U8))
    case Plain(Name(RG, 8, UNORM, 8)) => Some(Descriptor(2, U8))
    case Plain(Name(RG, 8, SNORM, 8)) => Some(Descriptor(2, I8))
    case Plain(Name(RG, 8, USCALED, 8)) => Some(Descriptor(2, U8))
    case Plain(Name(RG, 8, SSCALED, 8)) => Some(Descriptor(2, I8))
    case Plain(Name(RG, 8, UINT, 8)) => Some(Descriptor(2, U8))
    case Plain(Name(RG, 8, SINT, 8)) => Some(Descriptor(2, I8))
    case Plain(Name(RG, 8, SRGB, 8)) => Some(Descriptor(2, U8))
    case Plain(Name(RGB, 8, UNORM, 8)) => Some(Descriptor(3, U8))
    case Plain(Name(RGB, 8, SNORM, 8)) => Some(Descriptor(3, I8))
    case Plain(Name(RGB, 8, USCALED, 8)) => Some(Descriptor(3, U8))
    case Plain(Name(RGB, 8, SSCALED, 8)) => Some(Descriptor(3, I8))
    case Plain(Name(RGB, 8, UINT, 8)) => Some(Descriptor(3, U8))
    case Plain(Name(RGB, 8, SINT, 8)) => Some(Descriptor(3, I8))
    case Plain(Name(RGB, 8, SRGB, 8)) => Some(Descriptor(3, U8))
    case Plain(Name(BGR, 8, UNORM, 8)) => Some(Descriptor(3, U8))
    case Plain(Name(BGR, 8, SNORM, 8)) => Some(Descriptor(3, I8))
    case Plain(Name(BGR, 8, USCALED, 8)) => Some(Descriptor(3, U8))
    case Plain(Name(BGR, 8, SSCALED, 8)) => Some(Descriptor(3, I8))
    case Plain(Name(BGR, 8, UINT, 8)) => Some(Descriptor(3, U8))
    case Plain(Name(BGR, 8, SINT, 8)) => Some(Descriptor(3, I8))
    case Plain(Name(BGR, 8, SRGB, 8)) => Some(Descriptor(3, U8))
    case Plain(Name(RGBA, 8, UNORM, 8)) => Some(Descriptor(4, U8))
    case Plain(Name(RGBA, 8, SNORM, 8)) => Some(Descriptor(4, I8))
    case Plain(Name(RGBA, 8, USCALED, 8)) => Some(Descriptor(4, U8))
    case Plain(Name(RGBA, 8, SSCALED, 8)) => Some(Descriptor(4, I8))
    case Plain(Name(RGBA, 8, UINT, 8)) => Some(Descriptor(4, U8))
    case Plain(Name(RGBA, 8, SINT, 8)) => Some(Descriptor(4, I8))
    case Plain(Name(RGBA, 8, SRGB, 8)) => Some(Descriptor(4, U8))
    case Plain(Name(RGBA, 8, UNORM, 32)) => Some(Descriptor(4, U8))
    case Plain(Name(RGBA, 8, SNORM, 32)) => Some(Descriptor(4, I8))
    case Plain(Name(RGBA, 8, USCALED, 32)) => Some(Descriptor(4, U8))
    case Plain(Name(RGBA, 8, SSCALED, 32)) => Some(Descriptor(4, I8))
    case Plain(Name(RGBA, 8, UINT, 32)) => Some(Descriptor(4, U8))
    case Plain(Name(RGBA, 8, SINT, 32)) => Some(Descriptor(4, I8))
    case Plain(Name(RGBA, 8, SRGB, 32)) => Some(Descriptor(4, U8))
    case Plain(Name(R, 16, UNORM, 16)) => Some(Descriptor(1, U16))
    case Plain(Name(R, 16, SNORM, 16)) => Some(Descriptor(1, I16))
    case Plain(Name(R, 16, USCALED, 16)) => Some(Descriptor(1, U16))
    case Plain(Name(R, 16, SSCALED, 16)) => Some(Descriptor(1, I16))
    case Plain(Name(R, 16, UINT, 16)) => Some(Descriptor(1, U16))
    case Plain(Name(R, 16, SINT, 16)) => Some(Descriptor(1, I16))
    case Plain(Name(R, 16, SFLOAT, 16)) => Some(Descriptor(1, Half16))
    case Plain(Name(RG, 16, UNORM, 16)) => Some(Descriptor(2, U16))
    case Plain(Name(RG, 16, SNORM, 16)) => Some(Descriptor(2, I16))
    case Plain(Name(RG, 16, USCALED, 16)) => Some(Descriptor(2, U16))
    case Plain(Name(RG, 16, SSCALED, 16)) => Some(Descriptor(2, I16))
    case Plain(Name(RG, 16, UINT, 16)) => Some(Descriptor(2, U16))
    case Plain(Name(RG, 16, SINT, 16)) => Some(Descriptor(2, I16))
    case Plain(Name(RG, 16, SFLOAT, 16)) => Some(Descriptor(2, Half16))
    case Plain(Name(RGB, 16, UNORM, 16)) => Some(Descriptor(3, U16))
    case Plain(Name(RGB, 16, SNORM, 16)) => Some(Descriptor(3, I16))
    case Plain(Name(RGB, 16, USCALED, 16)) => Some(Descriptor(3, U16))
    case Plain(Name(RGB, 16, SSCALED, 16)) => Some(Descriptor(3, I16))
    case Plain(Name(RGB, 16, UINT, 16)) => Some(Descriptor(3, U16))
    case Plain(Name(RGB, 16, SINT, 16)) => Some(Descriptor(3, I16))
    case Plain(Name(RGB, 16, SFLOAT, 16)) => Some(Descriptor(3, Half16))
    case Plain(Name(RGBA, 16, UNORM, 16)) => Some(Descriptor(4, U16))
    case Plain(Name(RGBA, 16, SNORM, 16)) => Some(Descriptor(4, I16))
    case Plain(Name(RGBA, 16, USCALED, 16)) => Some(Descriptor(4, U16))
    case Plain(Name(RGBA, 16, SSCALED, 16)) => Some(Descriptor(4, I16))
    case Plain(Name(RGBA, 16, UINT, 16)) => Some(Descriptor(4, U16))
    case Plain(Name(RGBA, 16, SINT, 16)) => Some(Descriptor(4, I16))
    case Plain(Name(RGBA, 16, SFLOAT, 16)) => Some(Descriptor(4, Half16))
    case Plain(Name(R, 32, UINT, 32)) => Some(Descriptor(1, U32))
    case Plain(Name(R, 32, SINT, 32)) => Some(Descriptor(1, I32))
    case Plain(Name(R, 32, SFLOAT, 32)) => Some(Descriptor(1, F32))
    case Plain(Name(RG, 32, UINT, 32)) => Some(Descriptor(2, U32))
    case Plain(Name(RG, 32, SINT, 32)) => Some(Descriptor(2, I32))
    case Plain(Name(RG, 32, SFLOAT, 32)) => Some(Descriptor(2, F32))
    case Plain(Name(RGB, 32, UINT, 32)) => Some(Descriptor(3, U32))
    case Plain(Name(RGB, 32, SINT, 32)) => Some(Descriptor(3, I32))
    case Plain(Name(RGB, 32, SFLOAT, 32)) => Some(Descriptor(3, F32))
    case Plain(Name(RGBA, 32, UINT, 32)) => Some(Descriptor(4, U32))
    case Plain(Name(RGBA, 32, SINT, 32)) => Some(Descriptor(4, I32))
    case Plain(Name(RGBA, 32, SFLOAT, 32)) => Some(Descriptor(4, F32))
    case Plain(Name(R, 64, UINT, 64)) => Some(Descriptor(1, U64))
    case Plain(Name(R, 64, SINT, 64)) => Some(Descriptor(1, I64))
    case Plain(Name(R, 64, SFLOAT, 64)) => Some(Descriptor(1, F64))
    case Plain(Name(RG, 64, UINT, 64)) => Some(Descriptor(2, U64))
    case Plain(Name(RG, 64, SINT, 64)) => Some(Descriptor(2, I64))
    case Plain(Name(RG, 64, SFLOAT, 64)) => Some(Descriptor(2, F64))
    case Plain(Name(RGB, 64, UINT, 64)) => Some(Descriptor(3, U64))
    case Plain(Name(RGB, 64, SINT, 64)) => Some(Descriptor(3, I64))
    case Plain(Name(RGB, 64, SFLOAT, 64)) => Some(Descriptor(3, F64))
    case Plain(Name(RGBA, 64, UINT, 64)) => Some(Descriptor(4, U64))
    case Plain(Name(RGBA, 64, SINT, 64)) => Some(Descriptor(4, I64))
    case Plain(Name(RGBA, 64, SFLOAT, 64)) => Some(Descriptor(4, F64))
    case _ => None
  }

  /** The descriptor that the naming rule gives a plain format name. */
  function NameDescriptor(n: Name): Option<Descriptor>
  {
    match KindFor(n.bits, n.numeric)
    case None => None
    case Some(k) => Some(Descriptor(GroupChannels(n.group), k))
  }

  /** The names the switch has a case for, as a rule: every group but BGRA,
      any suffix the naming rule gives a storage kind at that width, BGR only
      at 8 bits, and a packing word of the channel width, or of 32 bits for
      RGBA8. */
  predicate Listed(n: Name)
  {
    n.group != BGRA && KindFor(n.bits, n.numeric).Some? &&
    (n.group == BGR ==> n.bits == 8) &&
    (n.pack == n.bits || (n.pack == 32 && n.bits == 8 && n.group == RGBA))
  }

  /** The switch is the naming rule restricted to the listed names: a format
      is accepted exactly when it is plain and listed, and then it gets the
      channels and the storage kind its name says. */
  lemma ClassifyFollowsNamingRule(f: Format)
    ensures Classify(f) == if f.Plain? && Listed(f.name) then NameDescriptor(f.name) else None
    ensures f.Plain? && Listed(f.name) ==> NameDescriptor(f.name).Some?
  {
  }

  /** The rule gives the BGRA8 formats four channels of bytes, but the switch
      has no case for them. */
  lemma BgraRejected(n: Name)
    requires n.group == BGRA && n.bits == 8 && n.pack == 8 && n.numeric != SFLOAT
    ensures Classify(Plain(n)) == None
    ensures NameDescriptor(n) == Some(Descriptor(4, if IsSignedSuffix(n.numeric) then I8 else U8))
  {
    ClassifyFollowsNamingRule(Plain(n));
  }

  /** The channel count of an accepted format is that of its channel group. */
  lemma ChannelsFollowGroup(f: Format)
    requires Classify(f).Some?
    ensures f.Plain? && f.name.group != BGRA
    ensures Classify(f).value.channels == GroupChannels(f.name.group)
  {
    ClassifyFollowsNamingRule(f);
  }

  /** Integer formats store integers of their channel width: signed for SNORM,
      SSCALED and SINT, unsigned for UNORM, USCALED, UINT and SRGB. */
  lemma IntegerWidthAndSign(f: Format)
    requires f.Plain? && Classify(f).Some? && f.name.numeric != SFLOAT
    ensures Size(Classify(f).value.kind) * 8 == f.name.bits
    ensures IsSignedInt(Classify(f).value.kind) <==> IsSignedSuffix(f.name.numeric)
    ensures IsUnsignedInt(Classify(f).value.kind) <==> !IsSignedSuffix(f.name.numeric)
  {
    ClassifyFollowsNamingRule(f);
  }

  /** At 32 and 64 bits only UINT, SINT and SFLOAT formats are accepted, as
      unsigned, signed and floating-point elements of that width. */
  lemma WideFormats(f: Format)
    requires f.Plain? && Classify(f).Some? && f.name.bits >= 32
    ensures var n, k := f.name, Classify(f).value.kind;
      (n.bits == 32 || n.bits == 64) &&
      (n.numeric == UINT || n.numeric == SINT || n.numeric == SFLOAT) &&
      (n.numeric == UINT ==> k == (if n.bits == 32 then U32 else U64)) &&
      (n.numeric == SINT ==> k == (if n.bits == 32 then I32 else I64)) &&
      (n.numeric == SFLOAT ==> k == (if n.bits == 32 then F32 else F64))
  {
    ClassifyFollowsNamingRule(f);
  }

  /** Only the four 16-bit floating-point formats need the half decode. */
  lemma OnlyHalfFormatsDecode(f: Format)
    requires Classify(f).Some?
    ensures Classify(f).value.kind == Half16 <==> IsHalfFloat(f)
  {
    ClassifyFollowsNamingRule(f);
    var n := f.name;
    assert Classify(f).value.kind == Half16 <==> n.bits == 16 && n.numeric == SFLOAT;
  }

  /** The 8-bit formats packed in a 32-bit word are the seven RGBA8 ones, and
      they give four 8-bit channels, not one 32-bit element. */
  lemma Packed32GivesFourBytes(n: Name)
    requires n.pack == 32 && n.bits == 8
    ensures Classify(Plain(n)).Some? <==> n.group == RGBA && n.numeric != SFLOAT
    ensures Classify(Plain(n)).Some? ==>
      Classify(Plain(n)).value.channels == 4 && Size(Classify(Plain(n)).value.kind) == 1 &&
      Classify(Plain(n)) == Classify(Plain(Name(RGBA, 8, n.numeric, 8)))
  {
    ClassifyFollowsNamingRule(Plain(n));
    ClassifyFollowsNamingRule(Plain(Name(RGBA, 8, n.numeric, 8)));
  }

  /** One pixel of the array spans exactly one texel of the storage. */
  lemma DescriptorCoversTexel(f: Format)
    requires Classify(f).Some?
    ensures f.Plain?
    ensures Classify(f).value.channels * Size(Classify(f).value.kind) == TexelBytes(f.name)
  {
    ClassifyFollowsNamingRule(f);
  }

  /** The format of the switch's case at a position, in the order of the cases. */
  function CaseAt(i: nat): Format
    requires i < 94
  {
    if i < 35 then
      match i
      case 0 => Plain(Name(R, 8, UNORM, 8))
      case 1 => Plain(Name(R, 8, SNORM, 8))
      case 2 => Plain(Name(R, 8, USCALED, 8))
      case 3 => Plain(Name(R, 8, SSCALED, 8))
      case 4 => Plain(Name(R, 8, UINT, 8))
      case 5 => Plain(Name(R, 8, SINT, 8))
      case 6 => Plain(Name(R, 8, SRGB, 8))
      case 7 => Plain(Name(RG, 8, UNORM, 8))
      case 8 => Plain(Name(RG, 8, SNORM, 8))
      case 9 => Plain(Name(RG, 8, USCALED, 8))
      case 10 => Plain(Name(RG, 8, SSCALED, 8))
      case 11 => Plain(Name(RG, 8, UINT, 8))
      case 12 => Plain(Name(RG, 8, SINT, 8))
      case 13 => Plain(Name(RG, 8, SRGB, 8))
      case 14 => Plain(Name(RGB, 8, UNORM, 8))
      case 15 => Plain(Name(RGB, 8, SNORM, 8))
      case 16 => Plain(Name(RGB, 8, USCALED, 8))
      case 17 => Plain(Name(RGB, 8, SSCALED, 8))
      case 18 => Plain(Name(RGB, 8, UINT, 8))
      case 19 => Plain(Name(RGB, 8, SINT, 8))
      case 20 => Plain(Name(RGB, 8, SRGB, 8))
      case 21 => Plain(Name(BGR, 8, UNORM, 8))
      case 22 => Plain(Name(BGR, 8, SNORM, 8))
      case 23 => Plain(Name(BGR, 8, USCALED, 8))
      case 24 => Plain(Name(BGR, 8, SSCALED, 8))
      case 25 => Plain(Name(BGR, 8, UINT, 8))
      case 26 => Plain(Name(BGR, 8, SINT, 8))
      case 27 => Plain(Name(BGR, 8, SRGB, 8))
      case 28 => Plain(Name(RGBA, 8, UNORM, 8))
      case 29 => Plain(Name(RGBA, 8, SNORM, 8))
      case 30 => Plain(Name(RGBA, 8, USCALED, 8))
      case 31 => Plain(Name(RGBA, 8, SSCALED, 8))
      case 32 => Plain(Name(RGBA, 8, UINT, 8))
      case 33 => Plain(Name(RGBA, 8, SINT, 8))
      case 34 => Plain(Name(RGBA, 8, SRGB, 8))
    else if i < 42 then
      match i
      case 35 => Plain(Name(RGBA, 8, UNORM, 32))
      case 36 => Plain(Name(RGBA, 8, SNORM, 32))
      case 37 => Plain(Name(RGBA, 8, USCALED, 32))
      case 38 => Plain(Name(RGBA, 8, SSCALED, 32))
      case 39 => Plain(Name(RGBA, 8, UINT, 32))
      case 40 => Plain(Name(RGBA, 8, SINT, 32))
      case 41 => Plain(Name(RGBA, 8, SRGB, 32))
    else if i < 70 then
      match i
      case 42 => Plain(Name(R, 16, UNORM, 16))
      case 43 => Plain(Name(R, 16, SNORM, 16))
      case 44 => Plain(Name(R, 16, USCALED, 16))
      case 45 => Plain(Name(R, 16, SSCALED, 16))
      case 46 => Plain(Name(R, 16, UINT, 16))
      case 47 => Plain(Name(R, 16, SINT, 16))
      case 48 => Plain(Name(R, 16, SFLOAT, 16))
      case 49 => Plain(Name(RG, 16, UNORM, 16))
      case 50 => Plain(Name(RG, 16, SNORM, 16))
      case 51 => Plain(Name(RG, 16, USCALED, 16))
      case 52 => Plain(Name(RG, 16, SSCALED, 16))
      case 53 => Plain(Name(RG, 16, UINT, 16))
      case 54 => Plain(Name(RG, 16, SINT, 16))
      case 55 => Plain(Name(RG, 16, SFLOAT, 16))
      case 56 => Plain(Name(RGB, 16, UNORM, 16))
      case 57 => Plain(Name(RGB, 16, SNORM, 16))
      case 58 => Plain(Name(RGB, 16, USCALED, 16))
      case 59 => Plain(Name(RGB, 16, SSCALED, 16))
      case 60 => Plain(Name(RGB, 16, UINT, 16))
      case 61 => Plain(Name(RGB, 16, SINT, 16))
      case 62 => Plain(Name(RGB, 16, SFLOAT, 16))
      case 63 => Plain(Name(RGBA, 16, UNORM, 16))
      case 64 => Plain(Name(RGBA, 16, SNORM, 16))
      case 65 => Plain(Name(RGBA, 16, USCALED, 16))
      case 66 => Plain(Name(RGBA, 16, SSCALED, 16))
      case 67 => Plain(Name(RGBA, 16, UINT, 16))
      case 68 => Plain(Name(RGBA, 16, SINT, 16))
      case 69 => Plain(Name(RGBA, 16, SFLOAT, 16))
    else if i < 82 then
      match i
      case 70 => Plain(Name(R, 32, UINT, 32))
      case 71 => Plain(Name(R, 32, SINT, 32))
      case 72 => Plain(Name(R, 32, SFLOAT, 32))
      case 73 => Plain(Name(RG, 32, UINT, 32))
      case 74 => Plain(Name(RG, 32, SINT, 32))
      case 75 => Plain(Name(RG, 32, SFLOAT, 32))
      case 76 => Plain(Name(RGB, 32, UINT, 32))
      case 77 => Plain(Name(RGB, 32, SINT, 32))
      case 78 => Plain(Name(RGB, 32, SFLOAT, 32))
      case 79 => Plain(Name(RGBA, 32, UINT, 32))
      case 80 => Plain(Name(RGBA, 32, SINT, 32))
      case 81 => Plain(Name(RGBA, 32, SFLOAT, 32))
    else
      match i
      case 82 => Plain(Name(R, 64, UINT, 64))
      case 83 => Plain(Name(R, 64, SINT, 64))
      case 84 => Plain(Name(R, 64, SFLOAT, 64))
      case 85 => Plain(Name(RG, 64, UINT, 64))
      case 86 => Plain(Name(RG, 64, SINT, 64))
      case 87 => Plain(Name(RG, 64, SFLOAT, 64))
      case 88 => Plain(Name(RGB, 64, UINT, 64))
      case 89 => Plain(Name(RGB, 64, SINT, 64))
      case 90 => Plain(Name(RGB, 64, SFLOAT, 64))
      case 91 => Plain(Name(RGBA, 64, UINT, 64))
      case 92 => Plain(Name(RGBA, 64, SINT, 64))
      case 93 => Plain(Name(RGBA, 64, SFLOAT, 64))
  }

  /** The formats of the switch, in the order of its cases. */
  const Supported: seq<Format> := seq(94, i requires 0 <= i < 94 => CaseAt(i))

  /** Position of a format among the switch's cases, -1 when it has none: the
      inverse of `CaseAt`, which gives each accepted format a witness index
      and so proves the cases distinct. */
  function Ordinal(f: Format): int
  {
    match f
    case Plain(Name(R, 8, UNORM, 8)) => 0
    case Plain(Name(R, 8, SNORM, 8)) => 1
    case Plain(Name(R, 8, USCALED, 8)) => 2
    case Plain(Name(R, 8, SSCALED, 8)) => 3
    case Plain(Name(R, 8, UINT, 8)) => 4
    case Plain(Name(R, 8, SINT, 8)) => 5
    case Plain(Name(R, 8, SRGB, 8)) => 6
    case Plain(Name(RG, 8, UNORM, 8)) => 7
    case Plain(Name(RG, 8, SNORM, 8)) => 8
    case Plain(Name(RG, 8, USCALED, 8)) => 9
    case Plain(Name(RG, 8, SSCALED, 8)) => 10
    case Plain(Name(RG, 8, UINT, 8)) => 11
    case Plain(Name(RG, 8, SINT, 8)) => 12
    case Plain(Name(RG, 8, SRGB, 8)) => 13
    case Plain(Name(RGB, 8, UNORM, 8)) => 14
    case Plain(Name(RGB, 8, SNORM, 8)) => 15
    case Plain(Name(RGB, 8, USCALED, 8)) => 16
    case Plain(Name(RGB, 8, SSCALED, 8)) => 17
    case Plain(Name(RGB, 8, UINT, 8)) => 18
    case Plain(Name(RGB, 8, SINT, 8)) => 19
    case Plain(Name(RGB, 8, SRGB, 8)) => 20
    case Plain(Name(BGR, 8, UNORM, 8)) => 21
    case Plain(Name(BGR, 8, SNORM, 8)) => 22
    case Plain(Name(BGR, 8, USCALED, 8)) => 23
    case Plain(Name(BGR, 8, SSCALED, 8)) => 24
    case Plain(Name(BGR, 8, UINT, 8)) => 25
    case Plain(Name(BGR, 8, SINT, 8)) => 26
    case Plain(Name(BGR, 8, SRGB, 8)) => 27
    case Plain(Name(RGBA, 8, UNORM, 8)) => 28
    case Plain(Name(RGBA, 8, SNORM, 8)) => 29
    case Plain(Name(RGBA, 8, USCALED, 8)) => 30
    case Plain(Name(RGBA, 8, SSCALED, 8)) => 31
    case Plain(Name(RGBA, 8, UINT, 8)) => 32
    case Plain(Name(RGBA, 8, SINT, 8)) => 33
    case Plain(Name(RGBA, 8, SRGB, 8)) => 34
    case Plain(Name(RGBA, 8, UNORM, 32)) => 35
    case Plain(Name(RGBA, 8, SNORM, 32)) => 36
    case Plain(Name(RGBA, 8, USCALED, 32)) => 37
    case Plain(Name(RGBA, 8, SSCALED, 32)) => 38
    case Plain(Name(RGBA, 8, UINT, 32)) => 39
    case Plain(Name(RGBA, 8, SINT, 32)) => 40
    case Plain(Name(RGBA, 8, SRGB, 32)) => 41
    case Plain(Name(R, 16, UNORM, 16)) => 42
    case Plain(Name(R, 16, SNORM, 16)) => 43
    case Plain(Name(R, 16, USCALED, 16)) => 44
    case Plain(Name(R, 16, SSCALED, 16)) => 45
    case Plain(Name(R, 16, UINT, 16)) => 46
    case Plain(Name(R, 16, SINT, 16)) => 47
    case Plain(Name(R, 16, SFLOAT, 16)) => 48
    case Plain(Name(RG, 16, UNORM, 16)) => 49
    case Plain(Name(RG, 16, SNORM, 16)) => 50
    case Plain(Name(RG, 16, USCALED, 16)) => 51
    case Plain(Name(RG, 16, SSCALED, 16)) => 52
    case Plain(Name(RG, 16, UINT, 16)) => 53
    case Plain(Name(RG, 16, SINT, 16)) => 54
    case Plain(Name(RG, 16, SFLOAT, 16)) => 55
    case Plain(Name(RGB, 16, UNORM, 16)) => 56
    case Plain(Name(RGB, 16, SNORM, 16)) => 57
    case Plain(Name(RGB, 16, USCALED, 16)) => 58
    case Plain(Name(RGB, 16, SSCALED, 16)) => 59
    case Plain(Name(RGB, 16, UINT, 16)) => 60
    case Plain(Name(RGB, 16, SINT, 16)) => 61
    case Plain(Name(RGB, 16, SFLOAT, 16)) => 62
    case Plain(Name(RGBA, 16, UNORM, 16)) => 63
    case Plain(Name(RGBA, 16, SNORM, 16)) => 64
    case Plain(Name(RGBA, 16, USCALED, 16)) => 65
    case Plain(Name(RGBA, 16, SSCALED, 16)) => 66
    case Plain(Name(RGBA, 16, UINT, 16)) => 67
    case Plain(Name(RGBA, 16, SINT, 16)) => 68
    case Plain(Name(RGBA, 16, SFLOAT, 16)) => 69
    case Plain(Name(R, 32, UINT, 32)) => 70
    case Plain(Name(R, 32, SINT, 32)) => 71
    case Plain(Name(R, 32, SFLOAT, 32)) => 72
    case Plain(Name(RG, 32, UINT, 32)) => 73
    case Plain(Name(RG, 32, SINT, 32)) => 74
    case Plain(Name(RG, 32, SFLOAT, 32)) => 75
    case Plain(Name(RGB, 32, UINT, 32)) => 76
    case Plain(Name(RGB, 32, SINT, 32)) => 77
    case Plain(Name(RGB, 32, SFLOAT, 32)) => 78
    case Plain(Name(RGBA, 32, UINT, 32)) => 79
    case Plain(Name(RGBA, 32, SINT, 32)) => 80
    case Plain(Name(RGBA, 32, SFLOAT, 32)) => 81
    case Plain(Name(R, 64, UINT, 64)) => 82
    case Plain(Name(R, 64, SINT, 64)) => 83
    case Plain(Name(R, 64, SFLOAT, 64)) => 84
    case Plain(Name(RG, 64, UINT, 64)) => 85
    case Plain(Name(RG, 64, SINT, 64)) => 86
    case Plain(Name(RG, 64, SFLOAT, 64)) => 87
    case Plain(Name(RGB, 64, UINT, 64)) => 88
    case Plain(Name(RGB, 64, SINT, 64)) => 89
    case Plain(Name(RGB, 64, SFLOAT, 64)) => 90
    case Plain(Name(RGBA, 64, UINT, 64)) => 91
    case Plain(Name(RGBA, 64, SINT, 64)) => 92
    case Plain(Name(RGBA, 64, SFLOAT, 64)) => 93
    case _ => -1
  }

  /** The switch has exactly 94 distinct cases. */
  lemma SupportedAreDistinct()
    ensures |Supported| == 94
    ensures forall i, j :: 0 <= i < j < |Supported| ==> Supported[i] != Supported[j]
  {
    forall i | 0 <= i < |Supported|
      ensures Ordinal(Supported[i]) == i
    {
      CaseAtIsAccepted(i);
    }
  }

  /** Every case of the switch accepts its format, and its position is the
      format's ordinal. */
  lemma CaseAtIsAccepted(i: nat)
    requires i < 94
    ensures Classify(CaseAt(i)).Some? && Ordinal(CaseAt(i)) == i
  {
    if i < 35 {
      Pack8Cases(i);
    } else if i < 42 {
      Pack32Cases(i);
    } else if i < 70 {
      Bits16Cases(i);
    } else if i < 82 {
      Bits32Cases(i);
    } else {
      Bits64Cases(i);
    }
    ClassifyFollowsNamingRule(CaseAt(i));
  }

  /** The cases of the 8-bit formats packed per channel. */
  lemma Pack8Cases(i: nat)
    requires i < 35
    ensures CaseAt(i).Plain? && Listed(CaseAt(i).name) && Ordinal(CaseAt(i)) == i
  {
  }

  /** The cases of the RGBA8 formats packed in a 32-bit word. */
  lemma Pack32Cases(i: nat)
    requires 35 <= i < 42
    ensures CaseAt(i).Plain? && Listed(CaseAt(i).name) && Ordinal(CaseAt(i)) == i
  {
  }

  /** The cases of the 16-bit formats. */
  lemma Bits16Cases(i: nat)
    requires 42 <= i < 70
    ensures CaseAt(i).Plain? && Listed(CaseAt(i).name) && Ordinal(CaseAt(i)) == i
  {
  }

  /** The cases of the 32-bit formats. */
  lemma Bits32Cases(i: nat)
    requires 70 <= i < 82
    ensures CaseAt(i).Plain? && Listed(CaseAt(i).name) && Ordinal(CaseAt(i)) == i
  {
  }

  /** The cases of the 64-bit formats. */
  lemma Bits64Cases(i: nat)
    requires 82 <= i < 94
    ensures CaseAt(i).Plain? && Listed(CaseAt(i).name) && Ordinal(CaseAt(i)) == i
  {
  }

  /** Every accepted format has a case, at the position its ordinal names. */
  lemma OrdinalLocatesCase(f: Format)
    requires Classify(f).Some?
    ensures 0 <= Ordinal(f) < 94 && CaseAt(Ordinal(f)) == f
  {
  }

  /** A format is accepted exactly when it is one of the 94 cases. */
  lemma AcceptedExactlySupported(f: Format)
    ensures Classify(f).Some? <==> f in Supported
  {
    if Classify(f).Some? {
      OrdinalLocatesCase(f);
      assert Supported[Ordinal(f)] == f;
    }
    if f in Supported {
      var i :| 0 <= i < |Supported| && Supported[i] == f;
      CaseAtIsAccepted(i);
    }
  }
}
