/** The unit choice of `formatCO2` and `formatPageSize`. A display keeps the
    exact amount in the chosen unit; the fixed-point rounding of the text is
    not modelled. */
module Formatting {

  datatype Unit = Milligrams | Grams | Kilobytes | Megabytes

  datatype Quantity = Quantity(amount: real, unit: Unit)

  /** A displayed quantity; `approximate` is the leading `~` of an estimate. */
  datatype Display = Display(approximate: bool, quantity: Quantity)

  predicate IsMass(q: Quantity)
  {
    q.unit == Milligrams || q.unit == Grams
  }

  predicate IsSize(q: Quantity)
  {
    q.unit == Kilobytes || q.unit == Megabytes
  }

  /** Grams denoted by a mass display. */
  function GramsOf(q: Quantity): real
    requires IsMass(q)
  {
    if q.unit == Milligrams then q.amount / 1000.0 else q.amount
  }

  /** Bytes denoted by a size display. */
  function BytesOf(q: Quantity): real
    requires IsSize(q)
  {
    if q.unit == Megabytes then q.amount * 1000000.0 else q.amount * 1000.0
  }

  /** Below one gram the mass is shown in milligrams, otherwise in grams;
      either way the display denotes the same mass. */
  function FormatCO2(grams: real): (q: Quantity)
    ensures IsMass(q)
    ensures q.unit == Milligrams <==> grams < 1.0
    ensures GramsOf(q) == grams
  {
    if grams < 1.0 then Quantity(grams * 1000.0, Milligrams) else Quantity(grams, Grams)
  }

  /** Megabytes only strictly above 1,000,000 bytes, kilobytes otherwise;
      either way the display denotes the same size. */
  function FormatPageSize(bytes: int): (q: Quantity)
    ensures IsSize(q)
    ensures q.unit == Megabytes <==> bytes > 1000000
    ensures BytesOf(q) == bytes as real
  {
    if bytes > 1000000 then Quantity(bytes as real / 1000000.0, Megabytes)
    else Quantity(bytes as real / 1000.0, Kilobytes)
  }

  /** Exactly 1,000,000 bytes is still shown in kilobytes, as 1000 KB. */
  lemma OneMegabyteShowsAsKilobytes()
    ensures FormatPageSize(1000000) == Quantity(1000.0, Kilobytes)
    ensures FormatPageSize(1000001).unit == Megabytes
  {
  }
}
