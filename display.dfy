/** The display policy of calculate (script.js): for each of the seven output
    regions, a choice between a currency amount, the placeholder dash and a
    percent label. The currency formatter of the page (an en-IN INR
    Intl.NumberFormat) is abstracted as the Currency constructor. */
module Display {
  import opened Cost

  /** What an output region shows. */
  datatype Cell = Placeholder | Currency(amount: real) | Percent(pct: real)

  /** The seven output regions written by calculate. */
  datatype Panel = Panel(medicine: Cell, fees: Cell, preparation: Cell, transport: Cell,
                         prepPct: Cell, transPct: Cell, total: Cell)

  /** The cell shows no negative currency amount. */
  predicate NonNegative(c: Cell)
  {
    c.Currency? ==> c.amount >= 0.0
  }

  /** The medicine and fees regions: the amount when it is positive, the
      placeholder otherwise. */
  function AmountCell(x: real): (c: Cell)
    ensures c == Placeholder <==> x <= 0.0
    ensures c != Placeholder ==> c == Currency(x)
    ensures NonNegative(c)
  {
    if x > 0.0 then Currency(x) else Placeholder
  }

  /** The preparation and transport regions: the amount when it is positive;
      otherwise a deliberate zero when the fees are positive, and the
      placeholder only when they are not. */
  function ChargeCell(amount: real, fees: real): (c: Cell)
    ensures !c.Percent?
    ensures NonNegative(c)
    ensures fees > 0.0 ==> c.Currency?
    ensures c == Placeholder <==> amount <= 0.0 && fees <= 0.0
    ensures amount > 0.0 ==> c == Currency(amount)
    ensures c.Currency? && c.amount != amount ==> c.amount == 0.0 && amount <= 0.0
  {
    if amount > 0.0 then Currency(amount)
    else if fees > 0.0 then Currency(0.0)
    else Placeholder
  }

  /** The two percent regions: the percent label when positive, the
      placeholder otherwise. */
  function PercentCell(pct: real): (c: Cell)
    ensures c == Placeholder <==> pct <= 0.0
    ensures c != Placeholder ==> c == Percent(pct)
  {
    if pct > 0.0 then Percent(pct) else Placeholder
  }

  /** Everything calculate writes, for normalised inputs. */
  function Render(i: FormInputs): Panel
  {
    var a := Derive(i);
    Panel(AmountCell(i.medicine), AmountCell(i.fees),
          ChargeCell(a.preparation, i.fees), ChargeCell(a.transport, i.fees),
          PercentCell(i.prepPct), PercentCell(i.transPct),
          Currency(a.total))
  }

  /** The display policy as a whole: the total region is always the derived
      total and never the placeholder; no other region shows a negative
      amount; positive fees show in their region and force the two surcharge
      regions to show an amount; each percent region shows its rate exactly
      when the rate is positive. */
  lemma RenderPolicy(i: FormInputs)
    ensures Render(i).total == Currency(Derive(i).total) && Render(i).total != Placeholder
    ensures NonNegative(Render(i).medicine) && NonNegative(Render(i).fees)
    ensures NonNegative(Render(i).preparation) && NonNegative(Render(i).transport)
    ensures i.fees > 0.0 ==> Render(i).fees == Currency(i.fees)
    ensures i.fees > 0.0 ==> Render(i).preparation.Currency? && Render(i).transport.Currency?
    ensures Render(i).prepPct == Percent(i.prepPct) <==> i.prepPct > 0.0
    ensures Render(i).transPct == Percent(i.transPct) <==> i.transPct > 0.0
  {
  }

  /** The preparation region shows the placeholder exactly when the fees are
      zero, or negative with a non-negative percentage. */
  lemma PreparationPlaceholderExactly(i: FormInputs)
    ensures Render(i).preparation == Placeholder <==> i.fees == 0.0 || (i.fees < 0.0 && i.prepPct >= 0.0)
  {
  }

  /** The same for the transport region. */
  lemma TransportPlaceholderExactly(i: FormInputs)
    ensures Render(i).transport == Placeholder <==> i.fees == 0.0 || (i.fees < 0.0 && i.transPct >= 0.0)
  {
  }

  /** A negative fee with a negative percentage yields a positive surcharge,
      which is shown although the fees region shows the placeholder. */
  lemma NegativeFeesShowPreparation()
    ensures Render(FormInputs(0.0, -100.0, -10.0, 0.0)).fees == Placeholder
    ensures Render(FormInputs(0.0, -100.0, -10.0, 0.0)).preparation == Currency(10.0)
  {
  }

  /** All inputs zero: every region shows the placeholder except the total,
      which shows a formatted zero. */
  lemma ZeroInputsPanel()
    ensures Render(FormInputs(0.0, 0.0, 0.0, 0.0))
         == Panel(Placeholder, Placeholder, Placeholder, Placeholder, Placeholder, Placeholder, Currency(0.0))
  {
  }

  /** After the form is emptied: parseFloat("") is NaN, so every region shows
      the placeholder except the total, which shows a formatted zero. */
  lemma EmptyFormPanel(parseFloat: Parser)
    ensures EmptyIsNaN(parseFloat) ==>
              Render(Normalize(parseFloat, RawInputs("", "", "", "")))
              == Panel(Placeholder, Placeholder, Placeholder, Placeholder, Placeholder, Placeholder, Currency(0.0))
  {
    if EmptyIsNaN(parseFloat) {
      EmptyFormDerivesZero(parseFloat);
      ZeroInputsPanel();
    }
  }

  /** Positive fees with a 0% preparation rate show a computed zero, not the
      placeholder; with zero fees a positive rate still shows the placeholder. */
  lemma ZeroRateWithFees(medicine: real, fees: real, prepPct: real, transPct: real)
    ensures fees > 0.0 ==> Render(FormInputs(medicine, fees, 0.0, transPct)).preparation == Currency(0.0)
    ensures prepPct > 0.0 ==> Render(FormInputs(medicine, 0.0, prepPct, transPct)).preparation == Placeholder
  {
  }

  /** Unlike the other amount regions, the total region can show a negative
      amount: a negative medicine cost is shown in it as it is. */
  lemma TotalCanBeNegative()
    ensures Render(FormInputs(-5.0, 0.0, 0.0, 0.0)).total == Currency(-5.0)
    ensures !NonNegative(Render(FormInputs(-5.0, 0.0, 0.0, 0.0)).total)
  {
  }

  /** The worked example's total region. */
  lemma WorkedExampleTotal()
    ensures Render(FormInputs(500.0, 1000.0, 10.0, 5.0)).total == Currency(1650.0)
  {
  }

  /** The text a region shows, given the currency formatter (INR.format) and
      JavaScript's number-to-string conversion used in the percent labels. */
  function CellText(c: Cell, money: real -> string, number: real -> string): string
  {
    match c
    case Placeholder => "—"
    case Currency(x) => money(x)
    case Percent(p) => number(p) + "%"
  }
}
