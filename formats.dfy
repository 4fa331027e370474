/** The pixel formats of the texture library and what their names say.

    `GroupChannels` and `KindFor` state the naming rule that the loader's
    switch is meant to follow: what a plain format's name says about its
    channels and its storage. */
module Formats {

  datatype Option<T> = None | Some(value: T)

  /** A texture format of the library. A plain format is named
      <group><bits>_<numeric>_PACK<pack> (`FORMAT_RGBA8_UNORM_PACK8` is
      `Plain(Name(RGBA, 8, UNORM, 8))`); the formats the loader names as not
      yet handled have constructors of their own, and `Other` stands for every
      remaining format of the library (block-compressed, packed, and so on). */
  datatype Format =
    | Plain(name: Name)
    | RG11B10_UFLOAT_PACK32
    | RGB9E5_UFLOAT_PACK32
    | D16_UNORM_PACK16
    | D24_UNORM_PACK32
    | D32_SFLOAT_PACK32
    | S8_UINT_PACK8
    | D16_UNORM_S8_UINT_PACK32
    | D24_UNORM_S8_UINT_PACK32
    | D32_SFLOAT_S8_UINT_PACK64
    | Other(id: nat)

  /** The channel letters at the head of a format name. */
  datatype Group = R | RG | RGB | BGR | RGBA | BGRA

  /** The numeric suffix of a format name. */
  datatype Numeric = UNORM | SNORM | USCALED | SSCALED | UINT | SINT | SRGB | SFLOAT

  /** A plain format name: channel group, bits per channel, suffix, packing word. */
  datatype Name = Name(group: Group, bits: nat, numeric: Numeric, pack: nat)

  /** Element kinds of the produced arrays; `Half16` is half-precision storage
      that the loader decodes to `F32`. */
  datatype ElemKind = U8 | I8 | U16 | I16 | Half16 | U32 | I32 | F32 | U64 | I64 | F64

  /** Channel count and storage kind of an accepted format. */
  datatype Descriptor = Descriptor(channels: nat, kind: ElemKind)

  /** Bytes per element of a kind. */
  function Size(k: ElemKind): nat
  {
    match k
    case U8 | I8 => 1
    case U16 | I16 | Half16 => 2
    case U32 | I32 | F32 => 4
    case U64 | I64 | F64 => 8
  }

  predicate IsSignedInt(k: ElemKind)
  {
    k == I8 || k == I16 || k == I32 || k == I64
  }

  predicate IsUnsignedInt(k: ElemKind)
  {
    k == U8 || k == U16 || k == U32 || k == U64
  }

  /** The four 16-bit floating-point formats. */
  predicate IsHalfFloat(f: Format)
  {
    f == Plain(Name(R, 16, SFLOAT, 16)) || f == Plain(Name(RG, 16, SFLOAT, 16)) ||
    f == Plain(Name(RGB, 16, SFLOAT, 16)) || f == Plain(Name(RGBA, 16, SFLOAT, 16))
  }

  /** Naming rule, channels: R is one channel, RG two, RGB and BGR three,
      RGBA and BGRA four. */
  function GroupChannels(g: Group): nat
  {
    match g
    case R => 1
    case RG => 2
    case RGB | BGR => 3
    case RGBA | BGRA => 4
  }

  predicate IsSignedSuffix(n: Numeric)
  {
    n == SNORM || n == SSCALED || n == SINT
  }

  /** Naming rule, storage: an integer suffix gives an integer of the channel
      width, signed for SNORM, SSCALED and SINT and unsigned otherwise (SRGB
      bytes are kept encoded); SFLOAT gives half, single or double storage.
      SRGB exists only at 8 bits and SFLOAT only from 16 bits up; no
      normalised or scaled integer kind exists at 32 or 64 bits. */
  function KindFor(bits: nat, n: Numeric): Option<ElemKind>
  {
    if n == SFLOAT then
      (if bits == 16 then Some(Half16)
       else if bits == 32 then Some(F32)
       else if bits == 64 then Some(F64)
       else None)
    else if bits == 8 then
      (if n == SRGB || n == UNORM || n == USCALED || n == UINT then Some(U8) else Some(I8))
    else if bits == 16 then
      (if n == SRGB then None
       else if n == UNORM || n == USCALED || n == UINT then Some(U16) else Some(I16))
    else if bits == 32 then
      (if n == UINT then Some(U32) else if n == SINT then Some(I32) else None)
    else if bits == 64 then
      (if n == UINT then Some(U64) else if n == SINT then Some(I64) else None)
    else None
  }

  /** Bytes one texel of a plain format occupies in the texture's storage. */
  function TexelBytes(n: Name): nat
  {
    GroupChannels(n.group) * (n.bits / 8)
  }
}
