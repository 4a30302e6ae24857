/**
 * classify_email and classify_all_emails: the three scorers run on one
 * message, the primary category is the head of the three results sorted
 * by confidence (highest first, ties kept in list order), and the
 * aggregator counts the primary types of every message it could classify.
 */
module Classifier {
  import opened Wrappers
  import opened Attachments
  import opened Scoring

  datatype Category = Cotizacion | Renovacion | Endoso

  /** The key each category is reported and counted under. */
  function CategoryName(c: Category): string {
    match c
    case Cotizacion => "cotizacion"
    case Renovacion => "renovacion"
    case Endoso => "endoso"
  }

  /** The primary `type`: a category's name, or "sin_clasificar". */
  datatype PrimaryType = Typed(category: Category) | Unclassified

  function TypeName(t: PrimaryType): string {
    match t
    case Typed(c) => CategoryName(c)
    case Unclassified => "sin_clasificar"
  }

  /** The confidence a primary category needs to be reported by name. */
  const PrimaryFloor: int := 30

  // ------------------------------------------------- stable sort by confidence

  /** One (name, result) pair of the list that is sorted. */
  datatype Ranked = Ranked(category: Category, result: CategoryResult)

  function Key(x: Ranked): int {
    x.result.confidence
  }

  predicate SortedDesc(s: seq<Ranked>) {
    forall i, j :: 0 <= i < j < |s| ==> Key(s[i]) >= Key(s[j])
  }

  /** Insert x after every element whose key is at least x's, so equal keys keep their order. */
  function Insert(s: seq<Ranked>, x: Ranked): (r: seq<Ranked>)
    ensures |r| == |s| + 1
    ensures multiset(r) == multiset(s) + multiset{x}
    ensures r[0] == if s != [] && Key(s[0]) >= Key(x) then s[0] else x
  {
    if s == [] then [x]
    else if Key(s[0]) >= Key(x) then
      assert s == [s[0]] + s[1..];
      [s[0]] + Insert(s[1..], x)
    else [x] + s
  }

  /** Inserting into a sorted list keeps it sorted. */
  lemma {:induction false} InsertSorted(s: seq<Ranked>, x: Ranked)
    requires SortedDesc(s)
    ensures SortedDesc(Insert(s, x))
  {
    if s != [] && Key(s[0]) >= Key(x) {
      InsertSorted(s[1..], x);
      assert Insert(s, x) == [s[0]] + Insert(s[1..], x);
    }
  }

  /** The `sort(key=confidence, reverse=True)` of the source: a stable sort, highest key first. */
  function SortDesc(l: seq<Ranked>): (r: seq<Ranked>)
    ensures |r| == |l|
    ensures multiset(r) == multiset(l)
    ensures SortedDesc(r)
  {
    if l == [] then []
    else
      assert l == l[..|l| - 1] + [l[|l| - 1]];
      InsertSorted(SortDesc(l[..|l| - 1]), l[|l| - 1]);
      Insert(SortDesc(l[..|l| - 1]), l[|l| - 1])
  }

  /** The index of the first element with the largest key: the reference for what the sort puts first. */
  function FirstMax(l: seq<Ranked>): (k: nat)
    requires l != []
    ensures k < |l|
    ensures forall j :: 0 <= j < |l| ==> Key(l[j]) <= Key(l[k])
    ensures forall j :: 0 <= j < k ==> Key(l[j]) < Key(l[k])
  {
    if |l| == 1 then 0
    else
      var k := FirstMax(l[..|l| - 1]);
      if Key(l[k]) >= Key(l[|l| - 1]) then k else |l| - 1
  }

  /** The head of the stable sort is the first element of largest confidence. */
  lemma {:induction false} SortDescHead(l: seq<Ranked>)
    requires l != []
    ensures SortDesc(l)[0] == l[FirstMax(l)]
    decreases |l|
  {
    if |l| > 1 {
      var init := l[..|l| - 1];
      SortDescHead(init);
      assert init[FirstMax(init)] == l[FirstMax(init)];
    }
  }

  // ------------------------------------------------------- primary category

  /** `primary_classification`: its `details` is the chosen category's result. */
  datatype Primary = Primary(kind: PrimaryType, confidence: int, status: Status, details: CategoryResult)

  function RankedList(q: CategoryResult, r: CategoryResult, e: CategoryResult): seq<Ranked> {
    [Ranked(Cotizacion, q), Ranked(Renovacion, r), Ranked(Endoso, e)]
  }

  /**
   * The first category of largest confidence (the head of the stable sort,
   * by SortDescHead), named only when its confidence reaches the floor.
   */
  function PrimaryOf(q: CategoryResult, r: CategoryResult, e: CategoryResult): Primary {
    var l := RankedList(q, r, e);
    var top := l[FirstMax(l)];
    Primary(
      if top.result.confidence >= PrimaryFloor then Typed(top.category) else Unclassified,
      top.result.confidence, top.result.status, top.result)
  }

  function Max3(a: int, b: int, c: int): int {
    if a >= b && a >= c then a else if b >= c then b else c
  }

  /**
   * The primary confidence is the largest of the three; a tie goes to the
   * category listed first (cotizacion, then renovacion, then endoso); the
   * type is sin_clasificar exactly when that maximum is below 30, and the
   * maximum is reported either way, with the chosen category's status.
   */
  lemma PrimarySelection(q: CategoryResult, r: CategoryResult, e: CategoryResult)
    ensures PrimaryOf(q, r, e).confidence == Max3(q.confidence, r.confidence, e.confidence)
    ensures PrimaryOf(q, r, e).kind == Unclassified <==> PrimaryOf(q, r, e).confidence < PrimaryFloor
    ensures var p := PrimaryOf(q, r, e);
      p.confidence >= PrimaryFloor ==>
        && (p.kind == Typed(Cotizacion) <==> q.confidence >= r.confidence && q.confidence >= e.confidence)
        && (p.kind == Typed(Renovacion) <==> r.confidence > q.confidence && r.confidence >= e.confidence)
        && (p.kind == Typed(Endoso) <==> e.confidence > q.confidence && e.confidence > r.confidence)
    ensures var p := PrimaryOf(q, r, e);
      && (q.confidence >= r.confidence && q.confidence >= e.confidence ==> p.details == q && p.status == q.status)
      && (r.confidence > q.confidence && r.confidence >= e.confidence ==> p.details == r && p.status == r.status)
      && (e.confidence > q.confidence && e.confidence > r.confidence ==> p.details == e && p.status == e.status)
  {
    var l := RankedList(q, r, e);
    assert Key(l[0]) == q.confidence && Key(l[1]) == r.confidence && Key(l[2]) == e.confidence;
  }

  // ------------------------------------------------------------ one message

  /** The fields of the metadata file the classifier and the dashboard read. */
  datatype Metadata = Metadata(subject: string, senderName: string, folder: string)

  /**
   * What the classifier can read for each message id: its metadata file,
   * the `combined_text` of its .eml (the text taken from the HTML part;
   * "" when there is none), and the listing of its attachment directory.
   */
  datatype Mailbox = Mailbox(
    metadata: map<string, Metadata>,
    bodies: map<string, string>,
    attachmentDirs: map<string, seq<DirEntry>>)

  datatype EmailResult = EmailResult(
    emailId: string,
    metadata: Metadata,
    attachmentAnalysis: AttachmentInfo,
    cotizacion: CategoryResult,
    renovacion: CategoryResult,
    endoso: CategoryResult,
    primary: Primary)

  function BodyOf(box: Mailbox, id: string): string {
    if id in box.bodies then box.bodies[id] else ""
  }

  function DirOf(box: Mailbox, id: string): Option<seq<DirEntry>> {
    if id in box.attachmentDirs then Some(box.attachmentDirs[id]) else None
  }

  function MissingMetadata(id: string): string {
    "Metadatos no encontrados para " + id
  }

  /** classify_email: an error for a message without metadata, else the three results and the primary. */
  function ClassifyEmail(cfg: Config, box: Mailbox, id: string): (res: Result<EmailResult, string>)
    ensures res.Err? <==> id !in box.metadata
    ensures res.Err? ==> res.error == MissingMetadata(id)
    ensures res.Ok? ==> res.value.emailId == id
  {
    if id !in box.metadata then Err(MissingMetadata(id))
    else
      var md := box.metadata[id];
      var body := BodyOf(box, id);
      var info := Analysis(DirOf(box, id));
      var q := ClassifyQuote(cfg, md.subject, body, info);
      var r := ClassifyRenewal(cfg, md.subject, body, info);
      var e := ClassifyEndorsement(cfg, md.subject, body, info);
      Ok(EmailResult(id, md, info, q, r, e, PrimaryOf(q, r, e)))
  }

  // --------------------------------------------------------------- all messages

  const ProgressStem: string := "progress"
  const MissingDirectory: string := "Directorio de metadatos no encontrado"

  /**
   * What the aggregator keeps for one stem: nothing for the progress file
   * or for an error result, else the message's result.
   */
  function Kept(cfg: Config, box: Mailbox, id: string): (k: seq<EmailResult>)
    ensures |k| <= 1
    ensures k != [] <==> id != ProgressStem && id in box.metadata
    ensures k != [] ==> k[0].emailId == id
  {
    if id == ProgressStem then []
    else match ClassifyEmail(cfg, box, id)
      case Ok(res) => [res]
      case Err(_) => []
  }

  /** The results the aggregator keeps for the listed stems, in listing order. */
  function Classified(cfg: Config, box: Mailbox, stems: seq<string>): (rs: seq<EmailResult>)
    ensures |rs| <= |stems|
  {
    if stems == [] then []
    else Classified(cfg, box, stems[..|stems| - 1]) + Kept(cfg, box, stems[|stems| - 1])
  }

  function CountType(rs: seq<EmailResult>, t: PrimaryType): (n: nat)
    ensures n <= |rs|
  {
    if rs == [] then 0
    else CountType(rs[..|rs| - 1], t) + (if rs[|rs| - 1].primary.kind == t then 1 else 0)
  }

  lemma CountTypeAppend(rs: seq<EmailResult>, x: EmailResult, t: PrimaryType)
    ensures CountType(rs + [x], t) == CountType(rs, t) + (if x.primary.kind == t then 1 else 0)
  {
    assert (rs + [x])[..|rs|] == rs;
  }

  /** The results dictionary of classify_all_emails. */
  datatype Totals = Totals(
    totalEmails: nat,
    cotizacion: nat,
    renovacion: nat,
    endoso: nat,
    sinClasificar: nat,
    emails: seq<EmailResult>)

  /** The counters agree with the kept results. */
  predicate Counted(t: Totals) {
    && t.totalEmails == |t.emails|
    && t.cotizacion == CountType(t.emails, Typed(Cotizacion))
    && t.renovacion == CountType(t.emails, Typed(Renovacion))
    && t.endoso == CountType(t.emails, Typed(Endoso))
    && t.sinClasificar == CountType(t.emails, Unclassified)
  }

  /** Append one result and bump the total and the counter of its primary type. */
  method Record(t: Totals, res: EmailResult) returns (u: Totals)
    requires Counted(t)
    ensures u.emails == t.emails + [res]
    ensures Counted(u)
  {
    u := t.(emails := t.emails + [res], totalEmails := t.totalEmails + 1);
    match res.primary.kind {
      case Typed(Cotizacion) => u := u.(cotizacion := u.cotizacion + 1);
      case Typed(Renovacion) => u := u.(renovacion := u.renovacion + 1);
      case Typed(Endoso) => u := u.(endoso := u.endoso + 1);
      case Unclassified => u := u.(sinClasificar := u.sinClasificar + 1);
    }
    CountTypeAppend(t.emails, res, Typed(Cotizacion));
    CountTypeAppend(t.emails, res, Typed(Renovacion));
    CountTypeAppend(t.emails, res, Typed(Endoso));
    CountTypeAppend(t.emails, res, Unclassified);
  }

  /**
   * classify_all_emails over the stems of the metadata directory's .json
   * files (None when the directory is missing).
   */
  method ClassifyAll(cfg: Config, box: Mailbox, listing: Option<seq<string>>) returns (res: Result<Totals, string>)
    ensures listing.None? ==> res == Err(MissingDirectory)
    ensures listing.Some? ==> res.Ok? && res.value.emails == Classified(cfg, box, listing.value) && Counted(res.value)
  {
    if listing.None? {
      return Err(MissingDirectory);
    }
    var stems := listing.value;
    var t := Totals(0, 0, 0, 0, 0, []);
    var i := 0;
    while i < |stems|
      invariant 0 <= i <= |stems|
      invariant t.emails == Classified(cfg, box, stems[..i])
      invariant Counted(t)
    {
      var id := stems[i];
      assert stems[..i + 1][..i] == stems[..i];
      if id != ProgressStem {
        var c := ClassifyEmail(cfg, box, id);
        if c.Ok? {
          t := Record(t, c.value);
        }
      }
      i := i + 1;
    }
    assert stems[..|stems|] == stems;
    return Ok(t);
  }

  /** Every result has one of the four types, so the four counters add up to the total. */
  lemma {:induction false} CountsSumToTotal(rs: seq<EmailResult>)
    ensures CountType(rs, Typed(Cotizacion)) + CountType(rs, Typed(Renovacion)) + CountType(rs, Typed(Endoso))
            + CountType(rs, Unclassified) == |rs|
  {
    if rs != [] {
      CountsSumToTotal(rs[..|rs| - 1]);
      match rs[|rs| - 1].primary.kind
      case Typed(Cotizacion) =>
      case Typed(Renovacion) =>
      case Typed(Endoso) =>
      case Unclassified =>
    }
  }

  /** The progress file and ids without metadata never reach the results, and every result comes from a listed stem. */
  lemma {:induction false} ClassifiedSkips(cfg: Config, box: Mailbox, stems: seq<string>)
    ensures forall r | r in Classified(cfg, box, stems) ::
      r.emailId != ProgressStem && r.emailId in box.metadata && r.emailId in stems
    decreases |stems|
  {
    if stems != [] {
      var init := stems[..|stems| - 1];
      ClassifiedSkips(cfg, box, init);
      var k := Kept(cfg, box, stems[|stems| - 1]);
      assert Classified(cfg, box, stems) == Classified(cfg, box, init) + k;
      assert forall id | id in init :: id in stems;
    }
  }
}
