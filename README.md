# pygli loader, modelled in Dafny

pygli exposes the texture library gli to Python. Its `load` reads a texture
file and returns a NumPy array of shape (height, width, channels). The
array's element type follows from the texture's pixel format through one
large `switch`. For most formats the array holds the leading bytes of the
texture's storage, reinterpreted as elements of that type. The four 16-bit
floating-point (SFLOAT16) formats are instead converted to float32 by a
batch `half_to_float`.

This project models:

- `Formats`: the pixel formats and the naming rule their names follow. A
  name is <group><bits>_<numeric>_PACK<pack>. The group gives the channel
  count. Bits and suffix give the storage kind.
- `Catalog`: the switch of `load` in src/pygli.cpp, transcribed case by
  case, with proofs of what the cases have in common:
  - it is the naming rule restricted to 94 listed names;
  - channels follow the group;
  - integer width and sign follow the name;
  - 32- and 64-bit formats are UINT, SINT or SFLOAT only;
  - only SFLOAT16 decodes;
  - exactly 94 distinct formats are accepted.
- `HalfBatch`: the batch `half_to_float`, as a method over arrays. It
  computes the element count as the product of the shape and converts every
  element with a scalar converter `conv`, which the model takes as a
  parameter.
- `Decoder`: `load` itself. An empty texture and an unrecognised format are
  errors. Otherwise the shape is `[extent.y, extent.x, channels]` and the
  buffer is either the leading bytes of the storage reinterpreted, or the
  decoded 16-bit words.
- `LegacyLoader`: the earlier `load` of python/pygli.cpp. It has the same
  switch, except that the SFLOAT16 formats are reinterpreted as float32 with
  no conversion.

## Model

| member | source | states |
|---|---|---|
| Catalog.Classify | src/pygli.cpp:48-460 | each case of the switch gives one to four channels and a storage kind; every other format reaches `default` |
| Catalog.ClassifyFollowsNamingRule | src/pygli.cpp:49-459 | a format is accepted exactly when it is a plain name that `Listed` admits (no BGRA; BGR only at 8 bits; pack equal to the width, or 32 for RGBA8; a suffix that exists at that width); an accepted format gets the channels of its group and the kind its bits and suffix name; all other formats are rejected |
| Catalog.BgraRejected | src/pygli.cpp:49-459 | the naming rule gives the BGRA8 formats four byte channels, yet the switch rejects them |
| Catalog.ChannelsFollowGroup | src/pygli.cpp:49-445 | an accepted format is plain, not BGRA, and its channel count is 1 for R, 2 for RG, 3 for RGB/BGR and 4 for RGBA |
| Catalog.IntegerWidthAndSign | src/pygli.cpp:49-336 | a non-float accepted format stores integers of its channel width; they are signed exactly for SNORM/SSCALED/SINT and unsigned exactly for UNORM/USCALED/UINT/SRGB |
| Catalog.WideFormats | src/pygli.cpp:343-445 | accepted formats of 32 bits or more are exactly 32 or 64 bits, UINT, SINT or SFLOAT, stored as unsigned, signed or floating-point elements of that width |
| Catalog.OnlyHalfFormatsDecode | src/pygli.cpp:223-341 | an accepted format has half storage exactly when it is one of the four SFLOAT16 formats |
| Catalog.Packed32GivesFourBytes | src/pygli.cpp:194-221 | an 8-bit name packed in 32 bits is accepted exactly when it is RGBA with an integer suffix; it then gives four one-byte channels, the same as its PACK8 twin |
| Catalog.DescriptorCoversTexel | src/pygli.cpp:49-445 | for an accepted format, channels times element size equals the bytes of one texel its name describes |
| Catalog.CaseAtIsAccepted | src/pygli.cpp:49-445 | the format at each case position is accepted, and its ordinal is that position |
| Catalog.Pack8Cases | src/pygli.cpp:49-192 | the 35 per-channel 8-bit cases are listed names at their own positions |
| Catalog.Pack32Cases | src/pygli.cpp:194-221 | the 7 RGBA8 PACK32 cases are listed names at their own positions |
| Catalog.Bits16Cases | src/pygli.cpp:223-341 | the 28 16-bit cases are listed names at their own positions |
| Catalog.Bits32Cases | src/pygli.cpp:343-393 | the 12 32-bit cases are listed names at their own positions |
| Catalog.Bits64Cases | src/pygli.cpp:395-445 | the 12 64-bit cases are listed names at their own positions |
| Catalog.OrdinalLocatesCase | src/pygli.cpp:48-460 | every accepted format is the format of the case its ordinal names |
| Catalog.SupportedAreDistinct | src/pygli.cpp:48-460 | the switch has 94 cases, all for different formats |
| Catalog.AcceptedExactlySupported | src/pygli.cpp:48-460 | a format is accepted if and only if it is one of those 94 |
| HalfBatch.ProductSnoc | src/pygli.cpp:28-30 | multiplying in one more dimension multiplies the element count by it |
| HalfBatch.DecodeHalves | src/pygli.cpp:32-33 | the conversion of a sequence has its length, and element i is `conv` of input element i |
| HalfBatch.HalfToFloat | src/pygli.cpp:18-36 | the output is a freshly allocated array (never the input, which is not written); it has as many elements as the product of the input's shape, element i is `conv(input[i])`, and the output is `DecodeHalves` of the input |
| Decoder.View | src/pygli.cpp:49-52 | `py::array_t<T>(shape, data)` is a well-sized array of that kind and shape over a prefix of the storage |
| Decoder.HostHalf | src/pygli.cpp:249 | the i-th 16-bit word read from the storage has storage byte 2i as its low byte and byte 2i+1 as its high byte |
| Decoder.HalfWords | src/pygli.cpp:247-249 | the `uint16_t` view has `count` elements; the low byte of element i is storage byte 2i and its high byte is storage byte 2i+1 |
| Decoder.DecodedView | src/pygli.cpp:247-250 | the converted array is float32, has the given shape, and element i is `conv` of the i-th 16-bit word |
| Decoder.ShapeBytes | src/pygli.cpp:44-51 | a [y, x, c] array of s-byte elements spans x * y * c * s bytes |
| Decoder.LoadStaysInBounds | src/pygli.cpp:44-52 | for an accepted format the loader reads exactly width * height * texel bytes, so it stays inside any storage holding the base level |
| Decoder.Load | src/pygli.cpp:39-463 | an empty texture is refused; an unrecognised format is refused; an accepted one gives an array of shape [height, width, channels] whose kind is its storage kind, or float32 for SFLOAT16 |
| Decoder.LoadReinterpretsStorage | src/pygli.cpp:49-52 | off SFLOAT16, the buffer is the leading width * height * texel bytes of the storage itself |
| Decoder.LoadDecodesHalves | src/pygli.cpp:247-250 | on SFLOAT16, the buffer holds height * width * channels words, and word i is `conv` of the storage's i-th 16-bit word |
| Decoder.LoadTestedHalfRgba | tests/test_basic.py:13-16 | a 256x256 RGBA16 SFLOAT texture loads as float32 of shape [256, 256, 4] |
| Decoder.LoadTestedByteRgba | tests/test_basic.py:18-21 | a 256x256 RGBA8 UNORM texture loads as uint8 of shape [256, 256, 4] |
| Decoder.LoadTestedByteRed | tests/test_basic.py:23-26 | a 256x256 R8 UINT texture loads as uint8 of shape [256, 256, 1] |
| Decoder.LoadHeightFirst | src/pygli.cpp:44 | a texture 2 wide and 3 high loads with shape [3, 2, 4]: height comes first |
| Decoder.LoadTestedFailures | src/pygli.cpp:41-459 | no data gives the empty-texture error (the `assert` at line 41, exercised by the missing-file case of tests/test_basic.py:28-34); a format without a case gives the unrecognised-format error of `default` at lines 458-459 |
| LegacyLoader.ClassifyLegacy | python/pygli.cpp:23-431 | the earlier switch never yields half storage |
| LegacyLoader.LegacyAgreesOffHalf | python/pygli.cpp:22-431 | the two switches agree on every format except the four SFLOAT16 ones; on those the earlier switch gives float32 with the same channel count |
| LegacyLoader.LegacyLoad | python/pygli.cpp:14-434 | the same refusals and shape as `load`; every accepted format, SFLOAT16 included, is a reinterpreted prefix of the storage |
| LegacyLoader.LegacyLoadAgreesOffHalf | python/pygli.cpp:14-434 | off SFLOAT16, the earlier loader returns exactly what the current one returns |
| LegacyLoader.LegacyHalfSkipsConversion | python/pygli.cpp:222-225 | on SFLOAT16 both give float32 of the same shape, but the earlier buffer is reinterpreted bytes and the current one decoded words |
| LegacyLoader.LegacyHalfReadsDouble | python/pygli.cpp:222-225 | on SFLOAT16 the earlier loader reads twice the bytes of the base level |
| LegacyLoader.LegacyHalfOverruns | python/pygli.cpp:222-225 | on a non-empty SFLOAT16 texture whose storage is exactly its base level, the earlier view overruns the storage |
| LegacyLoader.LegacyHalfOverrunExample | python/pygli.cpp:222-225 | a 1x1 R16 SFLOAT texture holding bytes 00 3C: the earlier view needs 4 bytes of a 2-byte storage, while `load` yields [conv(0x3C00)] |

## Left out

- File I/O: `gli::load(filepath)` is not modelled. Its result is the
  `Texture` argument of `Load`: `NoData` for a file that yields no texture,
  otherwise format, base-level extent and storage bytes.
- Decoder.Load: it requires `HoldsBaseLevel`, meaning the storage holds at
  least one texel per pixel of the first image. The texture library
  guarantees this; the C++ code relies on it without checking. Depth,
  layers, faces and further mip levels of the storage are not modelled; the
  loader reads only the first image.
- Decoder.Load: the `assert(!tex.empty())` is modelled as the
  `EmptyTexture` error. A build with assertions compiled out would instead
  go on to read an empty texture.
- The scalar half-to-float conversion lives in float_convert.hpp, which is
  not part of this model. It is the uninterpreted parameter `conv`, and
  float values are treated as 32-bit patterns.
- Decoder.HostHalf: it assumes a little-endian host when reading 16-bit
  words from the storage bytes.
- HalfBatch.HalfToFloat: `size_t` wrap-around in the element count is not
  modelled. The product is the size of an allocated array and cannot wrap.
- pybind11 details are reduced to element kind, shape and buffer: the
  Python wrapper objects, dtype objects, reference counting, and whether
  the array copies or aliases the storage.
- Formats.Format: gli's numeric enum values are not modelled. A plain
  format is its name (group, bits, suffix, packing). `Plain` also covers
  names the switch has no case for, such as the BGRA8 formats, and names
  the library does not define; `Classify` rejects all of them. The formats
  of the TODO list have constructors of their own, and every remaining
  format (compressed, packed, depth and so on) is `Other`.
- gli names BGRA8 formats, four channels by the naming rule
  (`GroupChannels(BGRA) == 4`), but the switch has no case for them, so
  BGRA8 textures are rejected as unrecognised; the model follows the code
  (Catalog.BgraRejected).
- LegacyLoader.LegacyLoad: it requires `LegacyReadFits`, so the earlier
  loader's out-of-bounds read on SFLOAT16 textures is left undefined, as
  it is in C++; LegacyLoader.LegacyHalfOverruns shows which textures
  violate that bound.
- `save` and the encode path, the exported `Format` enumeration, module
  registration, and the C++ example program cpp/src/main.cpp are outside
  the loader and are not part of this model.

## Findings

| source | as written | input that shows it | evidently intended | confidence | as-written member | corrected member |
|---|---|---|---|---|---|---|
| python/pygli.cpp:222-225 | SFLOAT16 storage is viewed as `float` with shape [y, x, c], reading 4 bytes per channel from storage that holds 2 per channel (the source's own TODO at line 22 says the cast is wrong) | a 1x1 R16_SFLOAT_PACK16 texture with storage bytes 00 3C: the view needs 4 bytes, only 2 exist | view the storage as 16-bit words and convert each with `half_to_float`, reading exactly the base level | high (not executed) | LegacyLoader.LegacyHalfOverrunExample | Decoder.LoadDecodesHalves |
