/**
  The format and sampler choice made by the demos' texture loaders. The image
  decoder is outside the model: its result is either a failure or a channel
  count. GL enumerants carry their values from the OpenGL headers, because the
  wrap-mode test compares a format against an integer.
*/
module Textures {

  const GlRed: int := 0x1903
  const GlRgb: int := 0x1907
  const GlRgba: int := 0x1908
  const GlSrgb: int := 0x8C40
  const GlSrgbAlpha: int := 0x8C42
  const GlRepeat: int := 0x2901
  const GlClampToEdge: int := 0x812F
  const GlLinear: int := 0x2601
  const GlLinearMipmapLinear: int := 0x2703

  /** What the image decoder hands back: nothing, or pixel data with a channel count. */
  datatype Decoded = DecodeFailed | Decoded(channels: int)

  /**
    What a loader call leaves behind. `FormatUnset` is a channel count the
    format chain does not cover: the formats stay uninitialised and the upload
    reads indeterminate values, so no format is claimed for it.
  */
  datatype TextureSetup =
    | LoadFailed
    | FormatUnset(channels: int)
    | Uploaded(internalFormat: int, dataFormat: int, wrapS: int, wrapT: int, minFilter: int, magFilter: int)

  /** C's conversion of a boolean to an integer when it is compared with one. */
  function CBool(b: bool): int {
    if b then 1 else 0
  }

  /** The right-hand side of the wrap test: the logical OR of two non-zero enumerants, i.e. 1. */
  function WrapTestOperand(): int {
    CBool(GlRgba != 0 || GlRgb != 0)
  }

  /** The wrap mode chosen for a data format: clamp only if the format equals the test operand. */
  function WrapFor(dataFormat: int): int {
    if dataFormat == WrapTestOperand() then GlClampToEdge else GlRepeat
  }

  /** Components per pixel of a data format; 0 for anything else. */
  function ComponentCount(format: int): int {
    if format == GlRed then 1
    else if format == GlRgb then 3
    else if format == GlRgba then 4
    else 0
  }

  /** The linear counterpart of an sRGB internal format; other formats map to themselves. */
  function Linearised(format: int): int {
    if format == GlSrgb then GlRgb
    else if format == GlSrgbAlpha then GlRgba
    else format
  }

  predicate IsSrgb(format: int) {
    format == GlSrgb || format == GlSrgbAlpha
  }

  /**
    The loader of the HDR and PBR demos: one channel maps to RED for both
    formats; three and four channels pick sRGB internal formats when gamma
    correction is asked for. Wrap is REPEAT on both axes in every uploaded case.
  */
  function LoadTexture(image: Decoded, gammaCorrection: bool): (r: TextureSetup)
    ensures image.DecodeFailed? <==> r.LoadFailed?
    ensures r.FormatUnset? <==> image.Decoded? && image.channels != 1 && image.channels != 3 && image.channels != 4
    ensures r.Uploaded? ==> ComponentCount(r.dataFormat) == image.channels
    ensures r.Uploaded? ==> Linearised(r.internalFormat) == r.dataFormat
    ensures r.Uploaded? ==> (IsSrgb(r.internalFormat) <==> gammaCorrection && image.channels != 1)
    ensures r.Uploaded? ==> r.wrapS == GlRepeat && r.wrapT == GlRepeat
    ensures r.Uploaded? ==> r.minFilter == GlLinearMipmapLinear && r.magFilter == GlLinear
  {
    match image
    case DecodeFailed => LoadFailed
    case Decoded(n) =>
      if n == 1 then Sampled(GlRed, GlRed)
      else if n == 3 then Sampled(if gammaCorrection then GlSrgb else GlRgb, GlRgb)
      else if n == 4 then Sampled(if gammaCorrection then GlSrgbAlpha else GlRgba, GlRgba)
      else FormatUnset(n)
  }

  /** The sampler state every successful upload gets, from its formats. */
  function Sampled(internalFormat: int, dataFormat: int): TextureSetup {
    Uploaded(internalFormat, dataFormat, WrapFor(dataFormat), WrapFor(dataFormat),
             GlLinearMipmapLinear, GlLinear)
  }

  /**
    The parallax demo's loader: no gamma flag, and the data format doubles as
    the internal format.
  */
  function LoadTextureLinear(image: Decoded): (r: TextureSetup)
    ensures image.DecodeFailed? <==> r.LoadFailed?
    ensures r.FormatUnset? <==> image.Decoded? && image.channels != 1 && image.channels != 3 && image.channels != 4
    ensures r.Uploaded? ==> r.internalFormat == r.dataFormat && ComponentCount(r.dataFormat) == image.channels
    ensures r.Uploaded? ==> r.wrapS == GlRepeat && r.wrapT == GlRepeat
  {
    match image
    case DecodeFailed => LoadFailed
    case Decoded(n) =>
      if n == 1 then Sampled(GlRed, GlRed)
      else if n == 3 then Sampled(GlRgb, GlRgb)
      else if n == 4 then Sampled(GlRgba, GlRgba)
      else FormatUnset(n)
  }

  /**
    The wrap test only clamps a format equal to 1, which none of the formats the
    loaders assign is, so clamping is unreachable.
  */
  lemma WrapTestNeverClamps(format: int)
    ensures WrapFor(format) == GlClampToEdge <==> format == 1
    ensures format == GlRed || format == GlRgb || format == GlRgba ==> WrapFor(format) == GlRepeat
  {
  }

  /** The parallax loader is the gamma-free case of the other loader. */
  lemma LinearLoaderIsGammaFree(image: Decoded)
    ensures LoadTextureLinear(image) == LoadTexture(image, false)
  {
  }
}
