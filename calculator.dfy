/** The page state script.js works on: the four input fields, the seven
    output regions and the copy-status line, with calculate, resetForm and
    the text construction of copySummary as its operations. */
module Page {
  import opened Cost
  import opened Display
  import opened Summary

  class Calculator {
    /** parseFloat, a library routine of the browser. */
    const parseFloat: Parser

    /** The values of the four input fields (els.medicine.value, ...). */
    var form: RawInputs

    /** The text of the seven output regions (els.medicineOut.textContent, ...). */
    var display: Panel

    /** els.copyStatus.textContent. */
    var copyStatus: string

    /** The output regions show what the display policy prescribes for the
        current inputs. */
    ghost predicate Shown()
      reads this`form, this`display
    {
      display == Render(Normalize(parseFloat, form))
    }

    /** Page load: the fields and the status line hold whatever text the page
        markup gives them, and the script's last statements call calculate
        once. */
    constructor (parseFloat: Parser, initial: RawInputs, initialStatus: string)
      ensures this.parseFloat == parseFloat
      ensures form == initial && copyStatus == initialStatus
      ensures Shown()
    {
      this.parseFloat := parseFloat;
      form := initial;
      copyStatus := initialStatus;
      new;
      Calculate();
    }

    /** calculate: normalise, derive, choose the seven region values one by
        one, collect them in a local record and store it in one assignment.
        The inputs and the status line are left as they were. */
    method Calculate()
      modifies this`display
      ensures Shown()
    {
      var medicine := SanitizeNumber(parseFloat, form.medicine);
      var fees := SanitizeNumber(parseFloat, form.fees);
      var prepPct := SanitizeNumber(parseFloat, form.prepPercent);
      var transPct := SanitizeNumber(parseFloat, form.transportPercent);

      var preparation := Charge(prepPct, fees);
      var transport := Charge(transPct, fees);
      var total := medicine + fees + preparation + transport;

      var out := display;
      out := out.(medicine := if medicine > 0.0 then Currency(medicine) else Placeholder);
      out := out.(fees := if fees > 0.0 then Currency(fees) else Placeholder);
      out := out.(preparation := if preparation > 0.0 then Currency(preparation) else (if fees > 0.0 then Currency(0.0) else Placeholder));
      out := out.(transport := if transport > 0.0 then Currency(transport) else (if fees > 0.0 then Currency(0.0) else Placeholder));

      out := out.(prepPct := if prepPct > 0.0 then Percent(prepPct) else Placeholder);
      out := out.(transPct := if transPct > 0.0 then Percent(transPct) else Placeholder);

      out := out.(total := Currency(total));

      CalculateMatchesRender(medicine, fees, prepPct, transPct, out);
      assert Normalize(parseFloat, form) == FormInputs(medicine, fees, prepPct, transPct);
      display := out;
    }

    /** resetForm: empty the four fields, recalculate, clear the status line.
        Since parseFloat("") is NaN, every region then shows the placeholder
        except the total, which shows a formatted zero. */
    method ResetForm()
      modifies this`form, this`display, this`copyStatus
      ensures form == RawInputs("", "", "", "") && copyStatus == ""
      ensures Shown()
      ensures EmptyIsNaN(parseFloat) ==>
                display == Panel(Placeholder, Placeholder, Placeholder, Placeholder,
                                 Placeholder, Placeholder, Currency(0.0))
    {
      form := form.(medicine := "");
      form := form.(fees := "");
      form := form.(prepPercent := "");
      form := form.(transportPercent := "");
      Calculate();
      ghost var shown := display;
      assert shown == Render(Normalize(parseFloat, RawInputs("", "", "", "")));
      EmptyFormPanel(parseFloat);
      copyStatus := "";
      assert display == shown && form == RawInputs("", "", "", "");
    }

    /** The text copySummary hands to the clipboard. With single-line
        formatters it has exactly six lines, and once calculate has updated the regions its
        total line shows the same text as the total region. */
    method CopySummary(money: real -> string, number: real -> string) returns (text: string)
      ensures text == SummaryText(parseFloat, form, money, number)
      ensures SingleLine(money) && SingleLine(number) ==>
                Lines(text) == SummaryLines(parseFloat, form, money, number) && |Lines(text)| == 6
      ensures SingleLine(money) && SingleLine(number) && Shown() ==>
                Lines(text)[5] == "Total: " + CellText(display.total, money, number)
    {
      var lines := SummaryLines(parseFloat, form, money, number);
      text := Join(lines);
      if SingleLine(money) && SingleLine(number) {
        SummaryHasSixLines(parseFloat, form, money, number);
      }
      SummaryTotalMatchesDisplay(parseFloat, form, money, number);
    }
  }

  /** The seven conditional expressions of calculate are the display policy. */
  lemma CalculateMatchesRender(medicine: real, fees: real, prepPct: real, transPct: real, p: Panel)
    requires var preparation := Charge(prepPct, fees);
             var transport := Charge(transPct, fees);
             && p.medicine == (if medicine > 0.0 then Currency(medicine) else Placeholder)
             && p.fees == (if fees > 0.0 then Currency(fees) else Placeholder)
             && p.preparation == (if preparation > 0.0 then Currency(preparation) else (if fees > 0.0 then Currency(0.0) else Placeholder))
             && p.transport == (if transport > 0.0 then Currency(transport) else (if fees > 0.0 then Currency(0.0) else Placeholder))
             && p.prepPct == (if prepPct > 0.0 then Percent(prepPct) else Placeholder)
             && p.transPct == (if transPct > 0.0 then Percent(transPct) else Placeholder)
             && p.total == Currency(medicine + fees + preparation + transport)
    ensures p == Render(FormInputs(medicine, fees, prepPct, transPct))
  {
  }
}
