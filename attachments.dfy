/**
 * Attachment analysis of the classifier: every regular file in a
 * message's attachment directory is counted and put in at most one
 * bucket by a precedence-ordered chain of tests on its upper-cased name;
 * a slip spreadsheet is also opened and judged complete when more than
 * five of its cells are filled.
 */
module Attachments {
  import opened Text
  import opened Wrappers

  /** What opening a spreadsheet gives: the count of non-blank cells, or a load failure. */
  datatype Workbook = Loaded(filledCells: nat) | Unreadable

  /** One entry of the attachment directory listing, in listing order. */
  datatype DirEntry = DirEntry(name: string, isFile: bool, workbook: Workbook)

  datatype Bucket =
    | SlipSheet | Spreadsheet | QuotePdf | PolicyPdf | RenewalPdf | EndorsementPdf | Unbucketed

  /** A slip is complete when it has more than this many filled cells. */
  const SlipFilledMinimum: nat := 5

  const QuotePdfWords: seq<string> := ["COTIZACION", "COT", "PROPUESTA", "SEGURO MULTIPLE EMPRESARIAL"]
  const PolicyPdfWords: seq<string> := ["POLIZA", "PBE", "RECIBO"]
  const RenewalPdfWords: seq<string> :=
    ["RENOVACION", "RENOVAR", "CONDICIONES DE RENOVACION", "PRORROGA", "REHABILITACION"]
  const EndorsementPdfWords: seq<string> := ["ENDOSO", "BENEFICIOS", "INCISO", "CORRECCION", "MODIFICACION"]

  predicate IsSpreadsheetName(upperName: string) {
    EndsWith(upperName, ".XLSX") || EndsWith(upperName, ".XLS")
  }

  predicate IsPdfName(upperName: string) {
    EndsWith(upperName, ".PDF")
  }

  /** The elif chain: the first test that holds decides the bucket. */
  function BucketOf(upperName: string): Bucket
  {
    if IsSpreadsheetName(upperName) && Contains(upperName, "SLIP") then SlipSheet
    else if IsSpreadsheetName(upperName) then Spreadsheet
    else if IsPdfName(upperName) && ContainsAny(upperName, QuotePdfWords) then QuotePdf
    else if IsPdfName(upperName) && ContainsAny(upperName, PolicyPdfWords) then PolicyPdf
    else if IsPdfName(upperName) && ContainsAny(upperName, RenewalPdfWords) then RenewalPdf
    else if IsPdfName(upperName) && ContainsAny(upperName, EndorsementPdfWords) then EndorsementPdf
    else Unbucketed
  }

  /**
   * The precedence of the chain: slip spreadsheet, other spreadsheet, then the
   * PDF buckets in the order quote, policy, renewal, endorsement; a name that
   * qualifies for several buckets lands in the earliest one only.
   */
  lemma BucketPrecedence(n: string)
    ensures BucketOf(n) == SlipSheet <==> IsSpreadsheetName(n) && Contains(n, "SLIP")
    ensures BucketOf(n) == Spreadsheet <==> IsSpreadsheetName(n) && !Contains(n, "SLIP")
    ensures BucketOf(n) == QuotePdf <==>
      !IsSpreadsheetName(n) && IsPdfName(n) && ContainsAny(n, QuotePdfWords)
    ensures BucketOf(n) == PolicyPdf <==>
      !IsSpreadsheetName(n) && IsPdfName(n) && !ContainsAny(n, QuotePdfWords) && ContainsAny(n, PolicyPdfWords)
    ensures BucketOf(n) == RenewalPdf <==>
      !IsSpreadsheetName(n) && IsPdfName(n) && !ContainsAny(n, QuotePdfWords) && !ContainsAny(n, PolicyPdfWords)
      && ContainsAny(n, RenewalPdfWords)
    ensures BucketOf(n) == EndorsementPdf <==>
      !IsSpreadsheetName(n) && IsPdfName(n) && !ContainsAny(n, QuotePdfWords) && !ContainsAny(n, PolicyPdfWords)
      && !ContainsAny(n, RenewalPdfWords) && ContainsAny(n, EndorsementPdfWords)
  {
  }

  lemma UpperSharpLip()
    ensures Upper("ßlip") == "SSLIP"
  {
    assert "ßlip"[1..] == "lip" && "lip"[1..] == "ip" && "ip"[1..] == "p" && "p"[1..] == [];
  }

  lemma UpperXlsx()
    ensures Upper(".xlsx") == ".XLSX"
  {
    assert ".xlsx"[1..] == "xlsx" && "xlsx"[1..] == "lsx" && "lsx"[1..] == "sx" && "sx"[1..] == "x";
    assert "x"[1..] == [];
  }

  /** upper() turns ß into "SS", so "ßlip.xlsx" holds "SLIP" once upper-cased and is a slip sheet. */
  lemma SharpSSlip()
    ensures BucketOf(Upper("ßlip" + ".xlsx")) == SlipSheet
  {
    UpperAppend("ßlip", ".xlsx");
    UpperSharpLip();
    UpperXlsx();
    SlipSheetName("SSLIP", ".XLSX");
  }

  /** "SSLIP.XLSX" is a spreadsheet name holding "SLIP" one character in. */
  lemma SlipSheetName(stem: string, ext: string)
    requires stem == "SSLIP" && ext == ".XLSX"
    ensures BucketOf(stem + ext) == SlipSheet
  {
    var n := stem + ext;
    assert stem[1..] == "SLIP";
    assert n[1..] == "SLIP" + ext;
    assert StartsWith(n[1..], "SLIP");
    assert Contains(n[1..], "SLIP");
    assert Contains(n, "SLIP");
    assert n[|n| - |ext|..] == ext;
  }

  function BucketOfEntry(e: DirEntry): Bucket {
    BucketOf(Upper(e.name))
  }

  datatype AttachmentInfo = AttachmentInfo(
    hasSlip: bool,
    slipComplete: bool,
    slipFiles: seq<string>,
    pdfCotizacion: seq<string>,
    pdfPoliza: seq<string>,
    pdfRenovacion: seq<string>,
    pdfEndoso: seq<string>,
    excelFiles: seq<string>,
    totalAttachments: nat)

  const EmptyInfo: AttachmentInfo := AttachmentInfo(false, false, [], [], [], [], [], [], 0)

  /** Number of regular files in the listing. */
  function FileCount(es: seq<DirEntry>): (n: nat)
    ensures n <= |es|
  {
    if es == [] then 0 else FileCount(es[..|es| - 1]) + (if es[|es| - 1].isFile then 1 else 0)
  }

  /** Names (as listed, not upper-cased) of the regular files in bucket b, in listing order. */
  function NamesIn(es: seq<DirEntry>, b: Bucket): seq<string> {
    if es == [] then []
    else
      var e := es[|es| - 1];
      NamesIn(es[..|es| - 1], b) + (if e.isFile && BucketOfEntry(e) == b then [e.name] else [])
  }

  /**
   * The completeness flag after the loop: the verdict of the last slip whose
   * workbook could be loaded, false when there is none.
   */
  function SlipVerdict(es: seq<DirEntry>): bool {
    if es == [] then false
    else
      var e := es[|es| - 1];
      if e.isFile && BucketOfEntry(e) == SlipSheet && e.workbook.Loaded?
      then e.workbook.filledCells > SlipFilledMinimum
      else SlipVerdict(es[..|es| - 1])
  }

  /** One turn of the loop over the listing: a regular file is counted and listed under its bucket. */
  function Absorb(info: AttachmentInfo, e: DirEntry): (r: AttachmentInfo)
    ensures r.totalAttachments == info.totalAttachments + (if e.isFile then 1 else 0)
    ensures r.hasSlip == (info.hasSlip || (e.isFile && BucketOfEntry(e) == SlipSheet))
    ensures r.slipComplete ==
      if e.isFile && BucketOfEntry(e) == SlipSheet && e.workbook.Loaded?
      then e.workbook.filledCells > SlipFilledMinimum
      else info.slipComplete
  {
    if !e.isFile then info
    else
      var counted := info.(totalAttachments := info.totalAttachments + 1);
      match BucketOfEntry(e)
      case SlipSheet =>
        var listed := counted.(hasSlip := true, slipFiles := counted.slipFiles + [e.name]);
        if e.workbook.Loaded? then listed.(slipComplete := e.workbook.filledCells > SlipFilledMinimum) else listed
      case Spreadsheet => counted.(excelFiles := counted.excelFiles + [e.name])
      case QuotePdf => counted.(pdfCotizacion := counted.pdfCotizacion + [e.name])
      case PolicyPdf => counted.(pdfPoliza := counted.pdfPoliza + [e.name])
      case RenewalPdf => counted.(pdfRenovacion := counted.pdfRenovacion + [e.name])
      case EndorsementPdf => counted.(pdfEndoso := counted.pdfEndoso + [e.name])
      case Unbucketed => counted
  }

  /** The record after absorbing every entry of the listing, in order. */
  function Summary(es: seq<DirEntry>): AttachmentInfo {
    if es == [] then EmptyInfo else Absorb(Summary(es[..|es| - 1]), es[|es| - 1])
  }

  /** The record analyze_attachments returns: all-empty for a missing directory. */
  function Analysis(dir: Option<seq<DirEntry>>): AttachmentInfo {
    match dir
    case None => EmptyInfo
    case Some(es) => Summary(es)
  }

  /** The list of the record that holds bucket b's names ([] for files no bucket takes). */
  function ListOf(info: AttachmentInfo, b: Bucket): seq<string> {
    match b
    case SlipSheet => info.slipFiles
    case Spreadsheet => info.excelFiles
    case QuotePdf => info.pdfCotizacion
    case PolicyPdf => info.pdfPoliza
    case RenewalPdf => info.pdfRenovacion
    case EndorsementPdf => info.pdfEndoso
    case Unbucketed => []
  }

  lemma {:induction false} SummaryCount(es: seq<DirEntry>)
    ensures Summary(es).totalAttachments == FileCount(es)
  {
    if es != [] {
      SummaryCount(es[..|es| - 1]);
    }
  }

  lemma {:induction false} SummaryLists(es: seq<DirEntry>, b: Bucket)
    requires b != Unbucketed
    ensures ListOf(Summary(es), b) == NamesIn(es, b)
  {
    if es != [] {
      SummaryLists(es[..|es| - 1], b);
    }
  }

  lemma {:induction false} SummarySlip(es: seq<DirEntry>)
    ensures Summary(es).hasSlip <==> Summary(es).slipFiles != []
    ensures Summary(es).slipComplete == SlipVerdict(es)
  {
    if es != [] {
      SummarySlip(es[..|es| - 1]);
    }
  }

  /**
   * What the record says about the listing: the count of regular files,
   * each bucket's names in listing order, a slip flag that is set exactly
   * when a slip was listed, and the verdict of the last loadable slip.
   */
  lemma SummaryFields(es: seq<DirEntry>)
    ensures Summary(es).totalAttachments == FileCount(es)
    ensures Summary(es).slipFiles == NamesIn(es, SlipSheet)
    ensures Summary(es).excelFiles == NamesIn(es, Spreadsheet)
    ensures Summary(es).pdfCotizacion == NamesIn(es, QuotePdf)
    ensures Summary(es).pdfPoliza == NamesIn(es, PolicyPdf)
    ensures Summary(es).pdfRenovacion == NamesIn(es, RenewalPdf)
    ensures Summary(es).pdfEndoso == NamesIn(es, EndorsementPdf)
    ensures Summary(es).hasSlip <==> NamesIn(es, SlipSheet) != []
    ensures Summary(es).slipComplete == SlipVerdict(es)
  {
    SummaryCount(es);
    SummarySlip(es);
    SummaryLists(es, SlipSheet);
    SummaryLists(es, Spreadsheet);
    SummaryLists(es, QuotePdf);
    SummaryLists(es, PolicyPdf);
    SummaryLists(es, RenewalPdf);
    SummaryLists(es, EndorsementPdf);
  }

  /** analyze_attachments: one pass over the listing, appending each regular file to its bucket. */
  method AnalyzeAttachments(dir: Option<seq<DirEntry>>) returns (info: AttachmentInfo)
    ensures info == Analysis(dir)
  {
    info := EmptyInfo;
    if dir.None? {
      return;
    }
    var es := dir.value;
    var i := 0;
    while i < |es|
      invariant 0 <= i <= |es|
      invariant info == Summary(es[..i])
    {
      var e := es[i];
      SummaryStep(es, i);
      ghost var prior := info;
      if e.isFile {
        info := info.(totalAttachments := info.totalAttachments + 1);
        match BucketOfEntry(e)
        case SlipSheet =>
          info := info.(hasSlip := true, slipFiles := info.slipFiles + [e.name]);
          if e.workbook.Loaded? {
            info := info.(slipComplete := e.workbook.filledCells > SlipFilledMinimum);
          }
        case Spreadsheet => info := info.(excelFiles := info.excelFiles + [e.name]);
        case QuotePdf => info := info.(pdfCotizacion := info.pdfCotizacion + [e.name]);
        case PolicyPdf => info := info.(pdfPoliza := info.pdfPoliza + [e.name]);
        case RenewalPdf => info := info.(pdfRenovacion := info.pdfRenovacion + [e.name]);
        case EndorsementPdf => info := info.(pdfEndoso := info.pdfEndoso + [e.name]);
        case Unbucketed =>
      }
      assert info == Absorb(prior, e);
      i := i + 1;
    }
    assert es[..|es|] == es;
  }

  /** Extending the prefix by one entry absorbs that entry. */
  lemma SummaryStep(es: seq<DirEntry>, i: nat)
    requires i < |es|
    ensures Summary(es[..i + 1]) == Absorb(Summary(es[..i]), es[i])
  {
    assert es[..i + 1][..i] == es[..i];
  }

  function BucketedCount(es: seq<DirEntry>): nat {
    |NamesIn(es, SlipSheet)| + |NamesIn(es, Spreadsheet)| + |NamesIn(es, QuotePdf)|
    + |NamesIn(es, PolicyPdf)| + |NamesIn(es, RenewalPdf)| + |NamesIn(es, EndorsementPdf)|
  }

  /** Every file lands in at most one bucket: the six lists together never outnumber the files. */
  lemma {:induction false} BucketsWithinTotal(es: seq<DirEntry>)
    ensures BucketedCount(es) + |NamesIn(es, Unbucketed)| == FileCount(es)
  {
    if es != [] {
      BucketsWithinTotal(es[..|es| - 1]);
    }
  }

  /** The completeness flag is set only by a loaded slip with more than five filled cells. */
  lemma {:induction false} SlipVerdictWitness(es: seq<DirEntry>)
    requires SlipVerdict(es)
    ensures exists k :: (0 <= k < |es| && es[k].isFile && BucketOfEntry(es[k]) == SlipSheet
      && es[k].workbook.Loaded? && es[k].workbook.filledCells > SlipFilledMinimum)
  {
    var e := es[|es| - 1];
    if !(e.isFile && BucketOfEntry(e) == SlipSheet && e.workbook.Loaded?) {
      SlipVerdictWitness(es[..|es| - 1]);
      var k :| 0 <= k < |es| - 1 && es[..|es| - 1][k].isFile && BucketOfEntry(es[..|es| - 1][k]) == SlipSheet
        && es[..|es| - 1][k].workbook.Loaded? && es[..|es| - 1][k].workbook.filledCells > SlipFilledMinimum;
      assert es[k] == es[..|es| - 1][k];
    }
  }

  /** With a single loaded slip, the flag is exactly "more than five filled cells". */
  lemma SingleSlipVerdict(name: string, cells: nat)
    requires IsSpreadsheetName(Upper(name)) && Contains(Upper(name), "SLIP")
    ensures SlipVerdict([DirEntry(name, true, Loaded(cells))]) <==> cells > 5
  {
    var es := [DirEntry(name, true, Loaded(cells))];
    assert es[..0] == [];
  }

}
