/** Input normalisation and the arithmetic derivation of the cost calculator
    (script.js: sanitizeNumber and the first half of calculate). Numbers are
    modelled as mathematical reals; floating-point rounding and overflow are
    not modelled. */
module Cost {

  /** The outcome of JavaScript's parseFloat on a text field: Some(n) for a
      finite number, None for NaN or an infinity. */
  datatype Option<+T> = None | Some(value: T)

  /** parseFloat itself is a library routine, so it is a parameter. */
  type Parser = string -> Option<real>

  /** parseFloat("") is NaN: an empty field does not parse to a number. */
  predicate EmptyIsNaN(parseFloat: Parser)
  {
    parseFloat("") == None
  }

  /** The four text fields of the form, as the user typed them. */
  datatype RawInputs = RawInputs(medicine: string, fees: string, prepPercent: string, transportPercent: string)

  /** The four inputs after normalisation. */
  datatype FormInputs = FormInputs(medicine: real, fees: real, prepPct: real, transPct: real)

  /** The quantities calculate derives from the inputs. */
  datatype Amounts = Amounts(preparation: real, transport: real, total: real)

  /** sanitizeNumber: the parsed value when it is finite, and 0 otherwise. */
  function SanitizeNumber(parseFloat: Parser, value: string): (n: real)
    ensures parseFloat(value).Some? ==> n == parseFloat(value).value
    ensures parseFloat(value).None? ==> n == 0.0
    ensures n != 0.0 ==> parseFloat(value) == Some(n)
  {
    match parseFloat(value)
    case Some(x) => x
    case None => 0.0
  }

  /** The four sanitizeNumber calls at the start of calculate and copySummary. */
  function Normalize(parseFloat: Parser, raw: RawInputs): FormInputs
  {
    FormInputs(SanitizeNumber(parseFloat, raw.medicine), SanitizeNumber(parseFloat, raw.fees),
               SanitizeNumber(parseFloat, raw.prepPercent), SanitizeNumber(parseFloat, raw.transportPercent))
  }

  /** A percentage of the fees: (pct / 100) * fees. */
  function Charge(pct: real, fees: real): real
  {
    (pct / 100.0) * fees
  }

  /** The derivation of calculate: the two surcharges are percentages of the
      fees and the total is the sum of the four line items. */
  function Derive(i: FormInputs): Amounts
  {
    var preparation := Charge(i.prepPct, i.fees);
    var transport := Charge(i.transPct, i.fees);
    Amounts(preparation, transport, i.medicine + i.fees + preparation + transport)
  }

  /** What Derive computes, stated without its intermediate steps: each
      surcharge is pct hundredths of the fees, the total less the surcharges
      is medicine plus fees, and in closed form the total is the medicine plus
      the fees scaled by one plus the combined percentage. */
  lemma DeriveMeaning(i: FormInputs)
    ensures Derive(i).preparation * 100.0 == i.prepPct * i.fees
    ensures Derive(i).transport * 100.0 == i.transPct * i.fees
    ensures Derive(i).total - Derive(i).preparation - Derive(i).transport == i.medicine + i.fees
    ensures Derive(i).total == i.medicine + i.fees * (1.0 + (i.prepPct + i.transPct) / 100.0)
  {
  }

  /** With non-negative fees and percentages the surcharges are non-negative
      and the total is at least medicine plus fees. */
  lemma DeriveNonNegative(i: FormInputs)
    requires i.fees >= 0.0 && i.prepPct >= 0.0 && i.transPct >= 0.0
    ensures Derive(i).preparation >= 0.0 && Derive(i).transport >= 0.0
    ensures Derive(i).total >= i.medicine + i.fees
  {
  }

  /** A surcharge is monotonically non-decreasing in both the percentage and
      the fees, as long as both are non-negative. */
  lemma ChargeMonotone(pct1: real, pct2: real, fees1: real, fees2: real)
    requires 0.0 <= pct1 <= pct2 && 0.0 <= fees1 <= fees2
    ensures Charge(pct1, fees1) <= Charge(pct2, fees2)
  {
  }

  /** The sign of a surcharge: positive exactly when percentage and fees are
      both non-zero with the same sign. */
  lemma ChargePositive(pct: real, fees: real)
    ensures Charge(pct, fees) > 0.0 <==> (pct > 0.0 && fees > 0.0) || (pct < 0.0 && fees < 0.0)
  {
  }

  /** Empty fields normalise to zero, so nothing is charged and the total is 0. */
  lemma EmptyFormDerivesZero(parseFloat: Parser)
    requires EmptyIsNaN(parseFloat)
    ensures Normalize(parseFloat, RawInputs("", "", "", "")) == FormInputs(0.0, 0.0, 0.0, 0.0)
    ensures Derive(FormInputs(0.0, 0.0, 0.0, 0.0)) == Amounts(0.0, 0.0, 0.0)
  {
  }

  /** The worked example: medicine 500, fees 1000, 10% preparation and 5%
      transport give 100, 50 and a total of 1650. */
  lemma WorkedExample()
    ensures Derive(FormInputs(500.0, 1000.0, 10.0, 5.0)) == Amounts(100.0, 50.0, 1650.0)
  {
  }
}
