/** The text copySummary builds for the clipboard (script.js:60-78): six lines
    joined with line feeds. The clipboard write and the status timers are not
    part of this module. */
module Summary {
  import opened Cost
  import opened Display

  /** lines.join("\n"). */
  function Join(lines: seq<string>): string
  {
    if |lines| == 0 then ""
    else if |lines| == 1 then lines[0]
    else lines[0] + "\n" + Join(lines[1..])
  }

  /** The lines of a text: the pieces between line feeds (text.split("\n")).
      The empty text is one empty line. */
  function Lines(text: string): (r: seq<string>)
    ensures |r| >= 1
  {
    if text == [] then [""]
    else
      var rest := Lines(text[1..]);
      if text[0] == '\n' then [""] + rest
      else [[text[0]] + rest[0]] + rest[1..]
  }

  /** No line break anywhere in the formatter's output. */
  ghost predicate SingleLine(f: real -> string)
  {
    forall x :: '\n' !in f(x)
  }

  /** A text without a line feed is one line. */
  lemma {:induction false} LinesOfLine(a: string)
    requires '\n' !in a
    ensures Lines(a) == [a]
  {
    if a != [] {
      assert '\n' !in a[1..];
      LinesOfLine(a[1..]);
      assert [a[0]] + a[1..] == a;
    }
  }

  /** A line, a line feed, then more text: the line comes first. */
  lemma {:induction false} LinesOfCons(a: string, b: string)
    requires '\n' !in a
    ensures Lines(a + "\n" + b) == [a] + Lines(b)
  {
    if a == [] {
      assert a + "\n" + b == "\n" + b;
      assert ("\n" + b)[1..] == b;
    } else {
      var t := a + "\n" + b;
      assert t[0] == a[0];
      assert t[1..] == a[1..] + "\n" + b;
      assert '\n' !in a[1..];
      LinesOfCons(a[1..], b);
      assert [a[0]] + a[1..] == a;
    }
  }

  /** Splitting at line feeds undoes joining with them, for a non-empty list
      of lines that contain no line feed. */
  lemma {:induction false} LinesOfJoin(lines: seq<string>)
    requires |lines| >= 1
    requires forall k :: 0 <= k < |lines| ==> '\n' !in lines[k]
    ensures Lines(Join(lines)) == lines
  {
    if |lines| == 1 {
      LinesOfLine(lines[0]);
    } else {
      LinesOfJoin(lines[1..]);
      LinesOfCons(lines[0], Join(lines[1..]));
      assert [lines[0]] + lines[1..] == lines;
    }
  }

  const Title: string := "Dr. J Ayisha • Cost Summary"

  /** The six lines of copySummary. It normalises and derives on its own,
      like the source does; the contract ties its amounts to Derive, the
      derivation calculate uses. */
  function SummaryLines(parseFloat: Parser, raw: RawInputs, money: real -> string, number: real -> string): seq<string>
  {
    var med := SanitizeNumber(parseFloat, raw.medicine);
    var fee := SanitizeNumber(parseFloat, raw.fees);
    var prepPct := SanitizeNumber(parseFloat, raw.prepPercent);
    var transPct := SanitizeNumber(parseFloat, raw.transportPercent);
    var preparation := Charge(prepPct, fee);
    var transport := Charge(transPct, fee);
    var total := med + fee + preparation + transport;
    [ Title,
      "Medicine: " + money(med),
      "Fees: " + money(fee),
      "Preparation (" + number(prepPct) + "% of Fees): " + money(preparation),
      "Transport & Packaging (" + number(transPct) + "% of Fees): " + money(transport),
      "Total: " + money(total) ]
  }

  /** The six summary lines in terms of the normalised inputs and the
      derivation calculate uses: the title, then each line item labelled, the
      surcharges with their rates, and the total. */
  lemma SummaryLinesContent(parseFloat: Parser, raw: RawInputs, money: real -> string, number: real -> string)
    ensures var i := Normalize(parseFloat, raw);
            var a := Derive(i);
            SummaryLines(parseFloat, raw, money, number)
            == [ Title,
                 "Medicine: " + money(i.medicine),
                 "Fees: " + money(i.fees),
                 "Preparation (" + number(i.prepPct) + "% of Fees): " + money(a.preparation),
                 "Transport & Packaging (" + number(i.transPct) + "% of Fees): " + money(a.transport),
                 "Total: " + money(a.total) ]
  {
  }

  /** The clipboard text: the six lines joined with line feeds. */
  function SummaryText(parseFloat: Parser, raw: RawInputs, money: real -> string, number: real -> string): string
  {
    Join(SummaryLines(parseFloat, raw, money, number))
  }

  /** With single-line formatters no summary line contains a line feed. */
  lemma SummaryLinesSingle(parseFloat: Parser, raw: RawInputs, money: real -> string, number: real -> string)
    requires SingleLine(money) && SingleLine(number)
    ensures var lines := SummaryLines(parseFloat, raw, money, number);
            && |lines| == 6
            && '\n' !in lines[0] && '\n' !in lines[1] && '\n' !in lines[2]
            && '\n' !in lines[3] && '\n' !in lines[4] && '\n' !in lines[5]
  {
    var i := Normalize(parseFloat, raw);
    var a := Derive(i);
    SummaryLinesContent(parseFloat, raw, money, number);
    assert '\n' !in Title;
    NoBreakInItems(money(i.medicine), money(i.fees), money(a.total));
    NoBreakInCharges(number(i.prepPct), money(a.preparation), number(i.transPct), money(a.transport));
  }

  /** The medicine, fees and total lines built from values without line feeds
      have none. */
  lemma NoBreakInItems(medicine: string, fees: string, total: string)
    requires '\n' !in medicine && '\n' !in fees && '\n' !in total
    ensures '\n' !in "Medicine: " + medicine && '\n' !in "Fees: " + fees
    ensures '\n' !in "Total: " + total
  {
    NoBreakAfterLabel("Medicine: ", medicine);
    NoBreakAfterLabel("Fees: ", fees);
    NoBreakAfterLabel("Total: ", total);
  }

  /** The two surcharge lines built from values without line feeds have none. */
  lemma NoBreakInCharges(prepPct: string, preparation: string, transPct: string, transport: string)
    requires '\n' !in prepPct && '\n' !in preparation && '\n' !in transPct && '\n' !in transport
    ensures '\n' !in "Preparation (" + prepPct + "% of Fees): " + preparation
    ensures '\n' !in "Transport & Packaging (" + transPct + "% of Fees): " + transport
  {
    NoBreakAroundRate("Preparation (", prepPct, preparation);
    NoBreakAroundRate("Transport & Packaging (", transPct, transport);
  }

  /** With single-line formatters the clipboard text has exactly six lines,
      and they are the six summary lines in order. */
  lemma SummaryHasSixLines(parseFloat: Parser, raw: RawInputs, money: real -> string, number: real -> string)
    requires SingleLine(money) && SingleLine(number)
    ensures Lines(SummaryText(parseFloat, raw, money, number)) == SummaryLines(parseFloat, raw, money, number)
    ensures |Lines(SummaryText(parseFloat, raw, money, number))| == 6
  {
    var lines := SummaryLines(parseFloat, raw, money, number);
    SummaryLinesSingle(parseFloat, raw, money, number);
    SixLinesSplit(lines);
    assert SummaryText(parseFloat, raw, money, number) == Join(lines);
  }

  /** Six lines without line feeds, joined and split again. */
  lemma SixLinesSplit(lines: seq<string>)
    requires |lines| == 6
    requires '\n' !in lines[0] && '\n' !in lines[1] && '\n' !in lines[2]
    requires '\n' !in lines[3] && '\n' !in lines[4] && '\n' !in lines[5]
    ensures Lines(Join(lines)) == lines
  {
    assert forall k :: 0 <= k < |lines| ==> '\n' !in lines[k];
    LinesOfJoin(lines);
  }

  /** A label without a line feed followed by a value without one. */
  lemma NoBreakAfterLabel(head: string, value: string)
    requires '\n' !in head && '\n' !in value
    ensures '\n' !in head + value
  {
  }

  /** A label, a rate, the rate's suffix and an amount, none with a line feed. */
  lemma NoBreakAroundRate(head: string, rate: string, amount: string)
    requires '\n' !in head && '\n' !in rate && '\n' !in amount
    ensures '\n' !in head + rate + "% of Fees): " + amount
  {
  }

  /** The summary's total line carries the text of the total region. */
  lemma SummaryTotalMatchesDisplay(parseFloat: Parser, raw: RawInputs, money: real -> string, number: real -> string)
    ensures SummaryLines(parseFloat, raw, money, number)[5]
         == "Total: " + CellText(Render(Normalize(parseFloat, raw)).total, money, number)
  {
    var i := Normalize(parseFloat, raw);
    SummaryLinesContent(parseFloat, raw, money, number);
    assert Render(i).total == Currency(Derive(i).total);
  }

  /** The medicine and fees lines carry the text of their regions when the
      amount is positive; when it is not, the region shows the placeholder
      while the summary still shows a formatted amount. */
  lemma SummaryAmountsMatchDisplay(parseFloat: Parser, raw: RawInputs, money: real -> string, number: real -> string)
    ensures var i := Normalize(parseFloat, raw);
            var lines := SummaryLines(parseFloat, raw, money, number);
            && (i.medicine > 0.0 ==> lines[1] == "Medicine: " + CellText(Render(i).medicine, money, number))
            && (i.medicine <= 0.0 ==> lines[1] == "Medicine: " + money(i.medicine) && CellText(Render(i).medicine, money, number) == "—")
            && (i.fees > 0.0 ==> lines[2] == "Fees: " + CellText(Render(i).fees, money, number))
            && (i.fees <= 0.0 ==> lines[2] == "Fees: " + money(i.fees) && CellText(Render(i).fees, money, number) == "—")
  {
  }

  /** The preparation and transport lines carry the text of their regions
      when the surcharge is positive. When it is not, the region shows a
      formatted zero (positive fees) or the dash (otherwise), while the
      summary line still shows the formatted surcharge, negative or not. */
  lemma SummaryChargesMatchDisplay(parseFloat: Parser, raw: RawInputs, money: real -> string, number: real -> string)
    ensures var i := Normalize(parseFloat, raw);
            var a := Derive(i);
            var lines := SummaryLines(parseFloat, raw, money, number);
            && (a.preparation > 0.0 ==>
                  lines[3] == "Preparation (" + number(i.prepPct) + "% of Fees): " + CellText(Render(i).preparation, money, number))
            && (a.preparation <= 0.0 ==>
                  && lines[3] == "Preparation (" + number(i.prepPct) + "% of Fees): " + money(a.preparation)
                  && CellText(Render(i).preparation, money, number) == (if i.fees > 0.0 then money(0.0) else "—"))
            && (a.transport > 0.0 ==>
                  lines[4] == "Transport & Packaging (" + number(i.transPct) + "% of Fees): " + CellText(Render(i).transport, money, number))
            && (a.transport <= 0.0 ==>
                  && lines[4] == "Transport & Packaging (" + number(i.transPct) + "% of Fees): " + money(a.transport)
                  && CellText(Render(i).transport, money, number) == (if i.fees > 0.0 then money(0.0) else "—"))
  {
  }

  /** Positive fees with a negative preparation rate: the region shows a
      formatted zero, the copied line shows the negative surcharge. */
  lemma NegativeRateCopiesNegativeCharge()
    ensures Derive(FormInputs(0.0, 100.0, -5.0, 0.0)).preparation == -5.0
    ensures Render(FormInputs(0.0, 100.0, -5.0, 0.0)).preparation == Currency(0.0)
  {
  }

  /** A positive rate appears in its summary line exactly as its percent
      region shows it. */
  lemma SummaryRatesMatchDisplay(parseFloat: Parser, raw: RawInputs, money: real -> string, number: real -> string)
    ensures var i := Normalize(parseFloat, raw);
            var a := Derive(i);
            var lines := SummaryLines(parseFloat, raw, money, number);
            && (i.prepPct > 0.0 ==>
                  lines[3] == "Preparation (" + CellText(Render(i).prepPct, money, number) + " of Fees): " + money(a.preparation))
            && (i.transPct > 0.0 ==>
                  lines[4] == "Transport & Packaging (" + CellText(Render(i).transPct, money, number) + " of Fees): " + money(a.transport))
  {
    var i := Normalize(parseFloat, raw);
    var a := Derive(i);
    PercentRegroup("Preparation (", number(i.prepPct), money(a.preparation));
    PercentRegroup("Transport & Packaging (", number(i.transPct), money(a.transport));
  }

  /** Moving the percent sign from the label text to the rate text. */
  lemma PercentRegroup(head: string, rate: string, amount: string)
    ensures head + rate + "% of Fees): " + amount == head + (rate + "%") + " of Fees): " + amount
  {
    assert "% of Fees): " == "%" + " of Fees): ";
  }
}
