/**
 * The spreadsheet tab main.py records entries in (`ensure_headers`, `append_to_sheets`), kept in
 * memory as its rows of cells, with `""` for an empty cell. A Sheets call that raises is modelled by
 * a `fault` argument.
 */
module Ledger {
  import opened Wrappers
  import opened Strings
  import opened Calendar
  import opened Extraction

  /** The titles `ensure_headers` writes to `A1:G1`. */
  const Header: seq<string> := ["DATA", "VALOR", "BANCO", "EMPRESA", "CL", "LINK PASTA", "REGISTRADO EM"]

  /** Columns `A` to `G`. */
  const Width := 7

  /** A reading of the clock, as `datetime.now()` gives it. */
  datatype DateTime = DateTime(date: Date, hour: nat, minute: nat, second: nat)

  predicate ValidDateTime(t: DateTime) {
    ValidDate(t.date) && t.hour < 24 && t.minute < 60 && t.second < 60
  }

  /** `strftime("%d/%m/%Y %H:%M:%S")`, the `REGISTRADO EM` cell. */
  function Timestamp(t: DateTime): (r: string)
    requires ValidDateTime(t)
    ensures |r| == 19 && r[10] == ' ' && r[13] == ':' && r[16] == ':'
    ensures r[..10] == DayMonthYear(t.date)
    ensures AllDigits(r[11..13]) && DecimalValue(r[11..13]) == t.hour
    ensures AllDigits(r[14..16]) && DecimalValue(r[14..16]) == t.minute
    ensures AllDigits(r[17..]) && DecimalValue(r[17..]) == t.second
  {
    var date, h, m, s := DayMonthYear(t.date), Pad(t.hour, 2), Pad(t.minute, 2), Pad(t.second, 2);
    var r := date + " " + h + ":" + m + ":" + s;
    TimestampLayout(date, h, m, s, r);
    TwoDigitsValue(t.hour);
    TwoDigitsValue(t.minute);
    TwoDigitsValue(t.second);
    r
  }

  /** Where each field of `%d/%m/%Y %H:%M:%S` sits. */
  lemma TimestampLayout(date: string, h: string, m: string, s: string, r: string)
    requires |date| == 10 && |h| == 2 && |m| == 2 && |s| == 2
    requires r == date + " " + h + ":" + m + ":" + s
    ensures |r| == 19 && r[10] == ' ' && r[13] == ':' && r[16] == ':'
    ensures r[..10] == date && r[11..13] == h && r[14..16] == m && r[17..] == s
  {
  }

  /** `%02d` of a number below 100 reads back as that number. */
  lemma TwoDigitsValue(n: nat)
    requires n < 100
    ensures AllDigits(Pad(n, 2)) && DecimalValue(Pad(n, 2)) == n
  {
    assert Power10(2) == 100 by { assert Power10(1) == 10; }
    PadValue(n, 2, 100);
  }

  /** The date half of a timestamp reads back, as a message date, to the day it was taken. */
  lemma TimestampDateRoundTrip(t: DateTime)
    requires ValidDateTime(t)
    ensures ParseDayMonthYear(Timestamp(t)[..10]) == Some(t.date)
  {
    ParseDayMonthYearRoundTrip(t.date);
  }

  /** The row `append_to_sheets` sends: the five fields, the folder link and the timestamp. */
  function LedgerRow(f: Fields, link: string, timestamp: string): (r: seq<string>)
    ensures |r| == Width
  {
    [f.data, f.valor, f.banco, f.empresa, f.cl, link, timestamp]
  }

  /** `A1:G1` reads back no values: the sheet has no first row, or its first seven cells are empty. */
  predicate FirstRowBlank(rows: seq<seq<string>>) {
    rows == [] || forall j :: 0 <= j < |rows[0]| && j < Width ==> rows[0][j] == ""
  }

  /** The rows after `A1:G1` is overwritten with the header; cells right of `G1` are kept. */
  function WithHeader(rows: seq<seq<string>>): (r: seq<seq<string>>)
    ensures |r| == (if rows == [] then 1 else |rows|)
    ensures |r[0]| >= Width && r[0][..Width] == Header
    ensures rows != [] ==> r[0][Width..] == (if |rows[0]| > Width then rows[0][Width..] else [])
    ensures rows != [] ==> r[1..] == rows[1..]
  {
    if rows == [] then [Header]
    else [Header + (if |rows[0]| > Width then rows[0][Width..] else [])] + rows[1..]
  }

  /** Once the header is written, `A1:G1` is no longer blank. */
  lemma WithHeaderNotBlank(rows: seq<seq<string>>)
    ensures !FirstRowBlank(WithHeader(rows))
  {
    var first := WithHeader(rows)[0];
    assert first[0] == first[..Width][0] == "DATA";
  }

  /**
   * The rows `ensure_headers` leaves, given which of its two calls raised: the header goes in only
   * when both calls succeed over a blank `A1:G1`; rows below the first are never touched, and after
   * two successful calls the first row is not blank.
   */
  function HeadersAfter(rows: seq<seq<string>>, readFault: Option<string>, writeFault: Option<string>): (r: seq<seq<string>>)
    ensures readFault.Some? || writeFault.Some? || !FirstRowBlank(rows) ==> r == rows
    ensures readFault.None? && writeFault.None? && FirstRowBlank(rows) ==> r == WithHeader(rows)
    ensures readFault.None? && writeFault.None? ==> !FirstRowBlank(r)
    ensures rows != [] ==> |r| == |rows| && r[1..] == rows[1..]
  {
    if readFault.None? && writeFault.None? && FirstRowBlank(rows) then
      WithHeaderNotBlank(rows);
      WithHeader(rows)
    else rows
  }

  /** The header is written again over a headed sheet to the same rows. */
  lemma WithHeaderIdempotent(rows: seq<seq<string>>)
    ensures WithHeader(WithHeader(rows)) == WithHeader(rows)
  {
    var once := WithHeader(rows);
    var first := once[0];
    assert first[..Width] == Header;
    assert Header + first[Width..] == first;
  }

  class Sheet {
    /** The tab's rows, top to bottom. */
    var rows: seq<seq<string>>

    constructor (initial: seq<seq<string>>)
      ensures rows == initial
    {
      rows := initial;
    }

    /**
     * `ensure_headers`: read `A1:G1`, and when it holds no value write the header there. Either call
     * may raise; the error is swallowed and nothing further is done.
     */
    method EnsureHeaders(readFault: Option<string>, writeFault: Option<string>)
      modifies this
      ensures rows == HeadersAfter(old(rows), readFault, writeFault)
    {
      if readFault.Some? {
        return;
      }
      if FirstRowBlank(rows) && writeFault.None? {
        rows := WithHeader(rows);
      }
    }

    /** `append_to_sheets`: one row after the existing ones, or the error the call raised. */
    method AppendRow(f: Fields, link: string, timestamp: string, fault: Option<string>) returns (err: Option<string>)
      modifies this
      ensures err == fault
      ensures fault.Some? ==> rows == old(rows)
      ensures fault.None? ==> rows == old(rows) + [LedgerRow(f, link, timestamp)]
    {
      if fault.Some? {
        return fault;
      }
      rows := rows + [LedgerRow(f, link, timestamp)];
      err := None;
    }
  }

  /** A second `ensure_headers` after a successful first one changes nothing. */
  method EnsureHeadersTwice(sheet: Sheet)
    modifies sheet
    ensures sheet.rows == HeadersAfter(old(sheet.rows), None, None)
  {
    sheet.EnsureHeaders(None, None);
    ghost var once := sheet.rows;
    sheet.EnsureHeaders(None, None);
    assert sheet.rows == once;
  }
}
