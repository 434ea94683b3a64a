/** Translation of a host raster's colour space into the colour space and
    gamma of the renderer's bitmap buffer. */
module ColorSpaces {

  /** Colour-space tags a host raster may carry. `CsOther` stands for any
      enumerator value outside the named ones. */
  datatype HostColorSpace =
    | CsUnknown
    | CsLinear
    | CsGamma22
    | CsSRGB
    | CsRec709
    | CsOCIO
    | CsCustomGamma
    | CsOther

  /** Colour spaces of the renderer's bitmap buffer. */
  datatype BitmapColorSpace = Linear | GammaCorrected | SRGB

  /** The colour space and gamma written into a bitmap buffer description. */
  datatype BitmapColor = BitmapColor(space: BitmapColorSpace, gamma: real)

  /** The host tags for which the raster's gamma value is meaningful. */
  predicate HasHostGamma(cs: HostColorSpace) {
    cs.CsLinear? || cs.CsGamma22? || cs.CsCustomGamma?
  }

  /** The colour space and gamma a raster with host tag `cs` and host gamma
      `hostGamma` is exported with. The host gamma is forwarded exactly when
      the tag makes it meaningful, and every unsupported tag falls back to
      linear with gamma 1. */
  function BitmapColorOf(cs: HostColorSpace, hostGamma: real): (r: BitmapColor)
    ensures r.gamma == if HasHostGamma(cs) then hostGamma else 1.0
    ensures r.space == SRGB <==> cs == CsSRGB
    ensures r.space == GammaCorrected <==> cs == CsGamma22 || cs == CsCustomGamma
    ensures r.space == Linear <==> !(cs == CsSRGB || cs == CsGamma22 || cs == CsCustomGamma)
  {
    match cs
    case CsLinear => BitmapColor(Linear, hostGamma)
    case CsGamma22 | CsCustomGamma => BitmapColor(GammaCorrected, hostGamma)
    case CsSRGB => BitmapColor(SRGB, 1.0)
    case _ => BitmapColor(Linear, 1.0)
  }
}
