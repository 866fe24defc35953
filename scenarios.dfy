/**
 * The worked example of main.py's module documentation, followed through extraction and naming.
 */
module Scenarios {
  import opened Wrappers
  import opened Strings
  import opened Calendar
  import opened Extraction
  import opened Naming

  /** The record of the message format example in the module documentation of main.py. */
  predicate IsExampleRecord(f: Fields) {
    f == Fields("04/02/2025", "R$ 1.500,00", "Itau", "Empresa XYZ", "CC001")
  }

  /** The values of the message format example in the module documentation of main.py. */
  const MessageData := "04/02/2025"
  const MessageValor := "R$ 1.500,00"
  const MessageBanco := "Itau"
  const MessageEmpresa := "Empresa XYZ"
  const MessageCl := "CC001"

  /** The lines of that example, each with its line break except the last. */
  const DataLine := DataLabel + ": " + MessageData + "\n"
  const ValorLine := ValorLabel + ": " + MessageValor + "\n"
  const BancoLine := BancoLabel + ": " + MessageBanco + "\n"
  const EmpresaLine := EmpresaLabel + ": " + MessageEmpresa + "\n"
  const ClLine := ClLabel + ": " + MessageCl

  predicate IsExampleMessage(t: string) {
    t == DataLine + ValorLine + BancoLine + EmpresaLine + ClLine
  }

  /** `c` is the upper-case letter `u` in either case. */
  predicate SameLetter(c: char, u: char) {
    c == u || c as int == u as int + 32
  }

  /**
   * A label of at least two letters may start at `k` of `s`: its first letter is there, and its
   * second letter follows unless `s` ends first.
   */
  predicate MayStartAt(s: string, tag: string, k: nat)
    requires |tag| >= 2 && k < |s|
  {
    SameLetter(s[k], tag[0]) && (k + 1 == |s| || SameLetter(s[k + 1], tag[1]))
  }

  predicate NoLabelStart(s: string, tag: string)
    requires |tag| >= 2
  {
    forall k :: 0 <= k < |s| ==> !MayStartAt(s, tag, k)
  }

  lemma NoLabelStartAppend(a: string, b: string, tag: string)
    requires |tag| >= 2 && NoLabelStart(a, tag) && NoLabelStart(b, tag)
    ensures NoLabelStart(a + b, tag)
  {
    var ab := a + b;
    forall k | 0 <= k < |ab|
      ensures !MayStartAt(ab, tag, k)
    {
      if k >= |a| {
        var j := k - |a|;
        assert !MayStartAt(b, tag, j);
        assert ab[k] == b[j];
        if k + 1 < |ab| {
          assert ab[k + 1] == b[j + 1];
        }
      } else {
        assert !MayStartAt(a, tag, k);
        assert ab[k] == a[k];
        if k + 1 < |a| {
          assert ab[k + 1] == a[k + 1];
        }
      }
    }
  }

  /** Case folding maps only the two cases of a letter onto it. */
  lemma FoldedLetter(c: char, u: char)
    requires 'A' <= u <= 'Z' && UpperAscii(c) == u
    ensures SameLetter(c, u)
  {
  }

  /** Where an upper-case label occurs in a text, its two first letters stand there in some case. */
  lemma LabelShows(text: string, pre: string, tag: string, k: nat)
    requires |tag| >= 2 && 'A' <= tag[0] <= 'Z' && 'A' <= tag[1] <= 'Z'
    requires k < |pre| <= |text| && text[..|pre|] == pre
    ensures LabelAt(text, tag, k) ==> MayStartAt(pre, tag, k)
  {
    if LabelAt(text, tag, k) {
      assert UpperAscii(text[k + 0]) == tag[0] && UpperAscii(text[k + 1]) == tag[1];
      FoldedLetter(text[k], tag[0]);
      FoldedLetter(text[k + 1], tag[1]);
      assert text[k] == pre[k];
      if k + 1 < |pre| {
        assert text[k + 1] == pre[k + 1];
      }
    }
  }

  /** A text that starts with `pre` has no occurrence of an upper-case label at any position inside `pre`. */
  lemma NoLabelBefore(text: string, pre: string, tag: string)
    requires |tag| >= 2 && 'A' <= tag[0] <= 'Z' && 'A' <= tag[1] <= 'Z' && NoLabelStart(pre, tag)
    requires |pre| <= |text| && text[..|pre|] == pre
    ensures forall k :: 0 <= k < |pre| ==> !LabelAt(text, tag, k)
  {
    forall k | 0 <= k < |pre|
      ensures !LabelAt(text, tag, k)
    {
      LabelShows(text, pre, tag, k);
    }
  }

  /** The lines before a label's own line contain no occurrence of it. */
  lemma DataLineWithoutValor()
    ensures NoLabelStart(DataLine, ValorLabel)
  {
  }

  lemma DataLineWithoutBanco()
    ensures NoLabelStart(DataLine, BancoLabel)
  {
  }

  lemma DataLineWithoutEmpresa()
    ensures NoLabelStart(DataLine, EmpresaLabel)
  {
  }

  lemma DataLineWithoutCl()
    ensures NoLabelStart(DataLine, ClLabel)
  {
  }

  lemma ValorLineWithoutBanco()
    ensures NoLabelStart(ValorLine, BancoLabel)
  {
  }

  lemma ValorLineWithoutEmpresa()
    ensures NoLabelStart(ValorLine, EmpresaLabel)
  {
  }

  lemma ValorLineWithoutCl()
    ensures NoLabelStart(ValorLine, ClLabel)
  {
  }

  lemma BancoLineWithoutEmpresa()
    ensures NoLabelStart(BancoLine, EmpresaLabel)
  {
  }

  lemma BancoLineWithoutCl()
    ensures NoLabelStart(BancoLine, ClLabel)
  {
  }

  lemma EmpresaLineWithoutCl()
    ensures NoLabelStart(EmpresaLine, ClLabel)
  {
  }

  /** An upper-case label is its own case-insensitive match. */
  lemma LabelMatchesItself(tag: string)
    requires forall i :: 0 <= i < |tag| ==> 'A' <= tag[i] <= 'Z'
    ensures forall i :: 0 <= i < |tag| ==> UpperAscii(tag[i]) == tag[i]
  {
  }

  lemma ExampleMessageData(t: string)
    requires IsExampleMessage(t)
    ensures Extract(t, DataLabel) == MessageData
  {
    var post := "\n" + ValorLine + BancoLine + EmpresaLine + ClLine;
    assert t == [] + DataLabel + ": " + MessageData + post;
    LabelMatchesItself(DataLabel);
    ExtractCleanLine(t, [], DataLabel, ": ", 0, MessageData, post, DataLabel);
  }

  lemma ExampleMessageValor(t: string)
    requires IsExampleMessage(t)
    ensures Extract(t, ValorLabel) == MessageValor
  {
    var pre := DataLine;
    var post := "\n" + BancoLine + EmpresaLine + ClLine;
    assert t == pre + ValorLabel + ": " + MessageValor + post;
    DataLineWithoutValor();
    NoLabelBefore(t, pre, ValorLabel);
    LabelMatchesItself(ValorLabel);
    ExtractCleanLine(t, pre, ValorLabel, ": ", 0, MessageValor, post, ValorLabel);
  }

  lemma ExampleMessageBanco(t: string)
    requires IsExampleMessage(t)
    ensures Extract(t, BancoLabel) == MessageBanco
  {
    var pre := DataLine + ValorLine;
    var post := "\n" + EmpresaLine + ClLine;
    assert t == pre + BancoLabel + ": " + MessageBanco + post;
    DataLineWithoutBanco();
    ValorLineWithoutBanco();
    NoLabelStartAppend(DataLine, ValorLine, BancoLabel);
    NoLabelBefore(t, pre, BancoLabel);
    LabelMatchesItself(BancoLabel);
    ExtractCleanLine(t, pre, BancoLabel, ": ", 0, MessageBanco, post, BancoLabel);
  }

  lemma ExampleMessageEmpresa(t: string)
    requires IsExampleMessage(t)
    ensures Extract(t, EmpresaLabel) == MessageEmpresa
  {
    var pre := DataLine + ValorLine + BancoLine;
    var post := "\n" + ClLine;
    assert t == pre + EmpresaLabel + ": " + MessageEmpresa + post;
    DataLineWithoutEmpresa();
    ValorLineWithoutEmpresa();
    BancoLineWithoutEmpresa();
    NoLabelStartAppend(DataLine, ValorLine, EmpresaLabel);
    NoLabelStartAppend(DataLine + ValorLine, BancoLine, EmpresaLabel);
    NoLabelBefore(t, pre, EmpresaLabel);
    LabelMatchesItself(EmpresaLabel);
    ExtractCleanLine(t, pre, EmpresaLabel, ": ", 0, MessageEmpresa, post, EmpresaLabel);
  }

  lemma ExampleMessageCl(t: string)
    requires IsExampleMessage(t)
    ensures Extract(t, ClLabel) == MessageCl
  {
    var pre := DataLine + ValorLine + BancoLine + EmpresaLine;
    assert t == pre + ClLabel + ": " + MessageCl + [];
    DataLineWithoutCl();
    ValorLineWithoutCl();
    BancoLineWithoutCl();
    EmpresaLineWithoutCl();
    NoLabelStartAppend(DataLine, ValorLine, ClLabel);
    NoLabelStartAppend(DataLine + ValorLine, BancoLine, ClLabel);
    NoLabelStartAppend(DataLine + ValorLine + BancoLine, EmpresaLine, ClLabel);
    NoLabelBefore(t, pre, ClLabel);
    LabelMatchesItself(ClLabel);
    ExtractCleanLine(t, pre, ClLabel, ": ", 0, MessageCl, [], ClLabel);
  }

  /** The example message yields the example record, and so is a payment entry. */
  lemma ExampleMessageFields(t: string)
    requires IsExampleMessage(t)
    ensures IsExampleRecord(ExtractFields(t))
    ensures HasRequiredFields(ExtractFields(t))
  {
    ExampleMessageData(t);
    ExampleMessageValor(t);
    ExampleMessageBanco(t);
    ExampleMessageEmpresa(t);
    ExampleMessageCl(t);
  }

  /** The `-` separator, with spaces around it: `VALOR - 10` fills `VALOR` with `10`. */
  lemma ExampleDashSeparator(t: string)
    requires t == ValorLabel + " - " + "10"
    ensures ExtractFields(t).valor == "10"
  {
    assert t == [] + ValorLabel + " - " + "10" + [];
    LabelMatchesItself(ValorLabel);
    ExtractCleanLine(t, [], ValorLabel, " - ", 1, "10", [], ValorLabel);
  }

  /** No space before the value, and the value on the next line: `DATA:\n04/02/2025`. */
  lemma ExampleValueOnNextLine(t: string)
    requires t == DataLabel + ":\n" + MessageData
    ensures ExtractFields(t).data == MessageData
  {
    assert t == [] + DataLabel + ":\n" + MessageData + [];
    LabelMatchesItself(DataLabel);
    ExtractCleanLine(t, [], DataLabel, ":\n", 0, MessageData, [], DataLabel);
  }

  lemma ExampleYear()
    ensures Pad(2025, 4) == "2025"
  {
    assert Pad(2, 1) == "2";
    assert Pad(20, 2) == "20";
    assert Pad(202, 3) == "202";
  }

  lemma ExampleRendering()
    ensures IsoDate(Date(2025, 2, 4)) == "2025-02-04"
    ensures YearMonth(Date(2025, 2, 4)) == "2025-02"
  {
    ExampleYear();
    Pad2Chars(2);
    Pad2Chars(4);
  }

  lemma ExampleDatePart(raw: string)
    requires raw == "04/02/2025"
    ensures ParseDayMonthYear(Strip(raw)) == Some(Date(2025, 2, 4))
    ensures DatePart(raw) == "2025-02-04"
  {
    ExampleDateStripped(raw);
    ParsePadded();
    DatePartOfParsed(raw, Date(2025, 2, 4));
    ExampleRendering();
  }

  lemma ExampleDateStripped(raw: string)
    requires raw == "04/02/2025"
    ensures Strip(raw) == "04/02/2025"
  {
    StripFixed("04/02/2025");
  }

  lemma DatePartOfParsed(raw: string, d: Date)
    requires ParseDayMonthYear(Strip(raw)) == Some(d)
    ensures DatePart(raw) == IsoDate(d)
  {
  }

  lemma ExampleValor(v: string)
    requires v == "R$ 1.500,00"
    ensures RemoveChar(v, ' ') == "R$1.500,00"
  {
    RemoveCharSplit(v, "R$", "1.500,00", ' ');
  }

  lemma ExampleStripped(banco: string, empresa: string, cl: string)
    requires banco == "Itau" && empresa == "Empresa XYZ" && cl == "CC001"
    ensures Strip(banco) == banco && Strip(empresa) == empresa && Strip(cl) == cl
  {
    StripFixed(banco);
    StripFixed(empresa);
    StripFixed(cl);
  }

  lemma ExampleOptional(banco: string, empresa: string, cl: string)
    requires banco == "Itau" && empresa == "Empresa XYZ" && cl == "CC001"
    ensures PresentParts([banco, empresa, cl]) == [banco, empresa, cl]
  {
    ExampleStripped(banco, empresa, cl);
    ThreePresent([banco, empresa, cl]);
  }

  /** The five parts of the example's entry folder name. */
  predicate IsExampleParts(parts: seq<string>) {
    |parts| == 5 && parts[0] == "2025-02-04" && parts[1] == "R$1.500,00" && parts[2] == "Itau"
    && parts[3] == "Empresa XYZ" && parts[4] == "CC001"
  }

  lemma ExampleParts(f: Fields)
    requires IsExampleRecord(f)
    ensures IsExampleParts(FolderParts(f))
  {
    ExampleDatePart(f.data);
    ExampleValor(f.valor);
    ExampleStripped(f.banco, f.empresa, f.cl);
    FolderPartsAllPresent(f);
  }

  lemma JoinFive(parts: seq<string>)
    requires |parts| == 5
    ensures Join(parts, "_") == parts[0] + "_" + parts[1] + "_" + parts[2] + "_" + parts[3] + "_" + parts[4]
  {
    assert parts[4..] == [parts[4]];
    JoinFirst(parts[3..]);
    assert parts[3..][1..] == parts[4..];
    JoinFirst(parts[2..]);
    assert parts[2..][1..] == parts[3..];
    JoinFirst(parts[1..]);
    assert parts[1..][1..] == parts[2..];
    JoinFirst(parts);
  }

  lemma ExampleJoin(parts: seq<string>)
    requires IsExampleParts(parts)
    ensures Join(parts, "_") == "2025-02-04_R$1.500,00_Itau_Empresa XYZ_CC001"
  {
    JoinFive(parts);
  }

  lemma ExampleNameSafe(name: string)
    requires name == "2025-02-04_R$1.500,00_Itau_Empresa XYZ_CC001"
    ensures SafeName(name)
  {
    forall i | 0 <= i < |name| ensures !IsForbidden(name[i]) {
    }
  }

  /** That record is filed under the month folder `2025-02`, */
  lemma ExampleMonthFolder(f: Fields, now: Date)
    requires IsExampleRecord(f) && ValidDate(now)
    ensures MonthFolderName(f, now) == "2025-02"
  {
    ExampleDatePart(f.data);
    ExampleRendering();
  }

  /** in the entry folder `2025-02-04_R$1.500,00_Itau_Empresa XYZ_CC001`. */
  lemma ExampleEntryFolder(f: Fields)
    requires IsExampleRecord(f)
    ensures BuildFolderName(f) == "2025-02-04_R$1.500,00_Itau_Empresa XYZ_CC001"
  {
    var parts := FolderParts(f);
    ExampleParts(f);
    ExampleJoin(parts);
    var joined := Join(parts, "_");
    ExampleNameSafe(joined);
    BuildFolderNameOfSafeJoin(f);
  }
}
