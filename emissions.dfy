/** The calculator's constants and its CO2 formula
    (grams of CO2 = bytes x kWh per byte x grid intensity). Numbers are
    exact reals here; the source computes in IEEE doubles. */
module Emissions {

  /** kWh spent per byte transferred. */
  const KwhPerByte: real := 0.000000006
  /** Global average grid intensity, grams of CO2 per kWh. */
  const GridIntensity: real := 519.0
  /** Green hosting scales the grid intensity by this factor. */
  const GreenHostingFactor: real := 0.5
  /** Page size assumed when the size probe gives nothing usable. */
  const DefaultPageSize: int := 2000000
  /** Page size assumed for browser-internal pages that cannot be probed. */
  const SpecialPageSize: int := 1000000

  /** Grams of CO2 for transferring `bytes`, halved for green hosting. */
  function CalculateCO2(bytes: int, isGreen: bool): (grams: real)
    ensures !isGreen ==> grams == bytes as real * 0.000003114
    ensures isGreen ==> grams == bytes as real * 0.000001557
    ensures bytes >= 0 ==> grams >= 0.0
    ensures bytes > 0 ==> grams > 0.0
  {
    var energy := bytes as real * KwhPerByte;
    var intensity := if isGreen then GridIntensity * GreenHostingFactor else GridIntensity;
    energy * intensity
  }

  /** Green hosting exactly halves the estimate. */
  lemma GreenHalves(bytes: int)
    ensures CalculateCO2(bytes, true) == CalculateCO2(bytes, false) / 2.0
    ensures bytes > 0 ==> CalculateCO2(bytes, true) < CalculateCO2(bytes, false)
  {
  }

  /** The estimate is additive in the page size. */
  lemma Additive(a: int, b: int, isGreen: bool)
    ensures CalculateCO2(a + b, isGreen) == CalculateCO2(a, isGreen) + CalculateCO2(b, isGreen)
  {
  }

  /** The estimate grows with the page size. */
  lemma MonotoneInBytes(a: int, b: int, isGreen: bool)
    requires a <= b
    ensures CalculateCO2(a, isGreen) <= CalculateCO2(b, isGreen)
  {
  }

  /** The 2 MB default page on ordinary hosting costs 6.228 g, on green
      hosting 3.114 g; the 1 MB special page costs 3.114 g. */
  lemma DefaultSizes()
    ensures CalculateCO2(DefaultPageSize, false) == 6.228
    ensures CalculateCO2(DefaultPageSize, true) == 3.114
    ensures CalculateCO2(SpecialPageSize, false) == 3.114
  {
  }
}
