/**
 * The three weighted checklist scorers of the classifier (quote, renewal,
 * endorsement). Each keyword list is tried in order and adds its weight
 * at most once (the loop stops at the first pattern that matches); the
 * entity extractors and the attachment buckets add fixed weights; quote
 * and renewal subtract contra-indicator weights. The confidence is the
 * score capped at 100 (no lower clamp) and each category is "met"
 * against its own threshold on the uncapped score.
 */
module Scoring {
  import opened Text
  import opened Wrappers
  import opened Sequences
  import opened Entities
  import opened Attachments

  /** One keyword regular expression of the configuration, as a test on the upper-cased text. */
  type Matcher = string -> bool

  /** The keyword lists, built once and passed to the scorers. */
  datatype Config = Config(
    quoteSubject: seq<Matcher>,
    quoteBody: seq<Matcher>,
    renewalSubject: seq<Matcher>,
    renewalBody: seq<Matcher>,
    endorsementSubject: seq<Matcher>,
    endorsementBody: seq<Matcher>)

  const QuoteThreshold: int := 40
  const RenewalThreshold: int := 40
  const EndorsementThreshold: int := 30
  const ConfidenceCap: int := 100

  /** The `status` strings a scorer can set; NoStatus is the initial "". */
  datatype Status =
    | NoStatus
    | QuoteComplete | QuotePending | QuoteDetected
    | RenewalComplete | RenewalPending
    | EndorsementComplete | EndorsementIncomplete

  function StatusText(s: Status): string {
    match s
    case NoStatus => ""
    case QuoteComplete => "Cotización con información completa"
    case QuotePending => "Cotización pendiente"
    case QuoteDetected => "Cotización detectada"
    case RenewalComplete => "Renovación con información completa"
    case RenewalPending => "Renovación pendiente"
    case EndorsementComplete => "Endoso completo"
    case EndorsementIncomplete => "Endoso incompleto"
  }

  /** The for/break loop over a keyword list: the index of the first pattern that matches. */
  function FirstMatch(ps: seq<Matcher>, text: string): (r: Option<nat>)
    ensures r.Some? ==> r.value < |ps| && ps[r.value](text) && forall j :: 0 <= j < r.value ==> !ps[j](text)
    ensures r.None? <==> forall j :: 0 <= j < |ps| ==> !ps[j](text)
  {
    if ps == [] then None
    else if ps[0](text) then Some(0)
    else match FirstMatch(ps[1..], text)
      case Some(k) => Some(k + 1)
      case None => None
  }

  /** The entries appended to `criteria_met`. */
  datatype Criterion =
    | QuoteSubjectKeyword | QuoteAgentCode | QuoteBodyKeyword | QuoteSlipPresent
    | QuoteSlipComplete | QuoteSlipIncomplete | QuotePdfPresent | QuotePolicyDocuments
    | RenewalSubjectKeyword | RenewalPolicyNumber | RenewalBodyKeyword | RenewalPdfPresent
    | RenewalPolicyDocuments | RenewalQuoteGuard
    | EndorsementSubjectKeyword | EndorsementBodyKeyword | EndorsementPolicyReference
    | EndorsementPdfPresent | EndorsementSupportDocuments

  /** The text the source appends for each criterion. */
  function Label(c: Criterion): string {
    match c
    case QuoteSubjectKeyword => "CA1: Palabra clave en asunto"
    case QuoteAgentCode => "CA2: Código de agente detectado"
    case QuoteBodyKeyword => "CA3: Palabra clave en cuerpo del email"
    case QuoteSlipPresent => "CA4: Archivo SLIP detectado"
    case QuoteSlipComplete => "CA5: SLIP completo"
    case QuoteSlipIncomplete => "CA5: SLIP vacío o incompleto"
    case QuotePdfPresent => "CA6: PDF de cotización presente"
    case QuotePolicyDocuments => "CA7/CA10: Contiene documentos de póliza vigente"
    case RenewalSubjectKeyword => "CA1: Palabra clave de renovación en asunto"
    case RenewalPolicyNumber => "CA2: Número de póliza detectado"
    case RenewalBodyKeyword => "CA4-6: Palabra clave de renovación en cuerpo"
    case RenewalPdfPresent => "CA-Adj1: PDF de renovación presente"
    case RenewalPolicyDocuments => "CA-Adj2: Documentos de póliza + renovación"
    case RenewalQuoteGuard => "CA-Adj5: Prevención falso positivo cotización"
    case EndorsementSubjectKeyword => "CA1-2: Palabra clave de endoso en asunto"
    case EndorsementBodyKeyword => "CA3-4: Palabra clave de endoso en cuerpo"
    case EndorsementPolicyReference => "CA5: Referencia a póliza vigente"
    case EndorsementPdfPresent => "CA7: PDF de endoso presente"
    case EndorsementSupportDocuments => "CA8: Documentos de respaldo de endoso"
  }

  /** What each criterion adds to (or, when negative, takes from) its category's score. */
  function Weight(c: Criterion): int {
    match c
    case QuoteSubjectKeyword => 30
    case QuoteAgentCode => 20
    case QuoteBodyKeyword => 15
    case QuoteSlipPresent => 25
    case QuoteSlipComplete => 15
    case QuoteSlipIncomplete => 0
    case QuotePdfPresent => 20
    case QuotePolicyDocuments => -15
    case RenewalSubjectKeyword => 35
    case RenewalPolicyNumber => 20
    case RenewalBodyKeyword => 15
    case RenewalPdfPresent => 25
    case RenewalPolicyDocuments => 20
    case RenewalQuoteGuard => -20
    case EndorsementSubjectKeyword => 35
    case EndorsementBodyKeyword => 15
    case EndorsementPolicyReference => 25
    case EndorsementPdfPresent => 20
    case EndorsementSupportDocuments => 15
  }

  function SumWeights(cs: seq<Criterion>): int {
    if cs == [] then 0 else SumWeights(cs[..|cs| - 1]) + Weight(cs[|cs| - 1])
  }

  function Min(a: int, b: int): int {
    if a <= b then a else b
  }

  lemma {:induction false} SumWeightsAppend(a: seq<Criterion>, b: seq<Criterion>)
    ensures SumWeights(a + b) == SumWeights(a) + SumWeights(b)
    decreases |b|
  {
    if b == [] {
      assert a + b == a;
    } else {
      var ab := a + b;
      assert ab[..|ab| - 1] == a + b[..|b| - 1];
      assert ab[|ab| - 1] == b[|b| - 1];
      SumWeightsAppend(a, b[..|b| - 1]);
    }
  }

  /** The running pair (`score`, `criteria_met`) of a scorer. */
  datatype Tally = Tally(score: int, criteria: seq<Criterion>)

  /** A tally is consistent when its score is exactly the weight of the criteria it lists. */
  predicate Consistent(t: Tally) {
    t.score == SumWeights(t.criteria)
  }

  const Start: Tally := Tally(0, [])

  /** One `if test: score += weight; criteria_met.append(label)` step. */
  function Add(t: Tally, test: bool, c: Criterion): (r: Tally)
    ensures Consistent(t) ==> Consistent(r)
    ensures multiset(r.criteria) == multiset(t.criteria) + (if test then multiset{c} else multiset{})
  {
    if test then
      SumWeightsAppend(t.criteria, [c]);
      Tally(t.score + Weight(c), t.criteria + [c])
    else t
  }

  /** The sum of the positive weights of a checklist. */
  function Gains(checklist: seq<Criterion>): int {
    if checklist == [] then 0
    else (if Weight(checklist[0]) > 0 then Weight(checklist[0]) else 0) + Gains(checklist[1..])
  }

  /** The sum of the negative weights of a checklist. */
  function Losses(checklist: seq<Criterion>): int {
    if checklist == [] then 0
    else (if Weight(checklist[0]) < 0 then Weight(checklist[0]) else 0) + Losses(checklist[1..])
  }

  /**
   * A scorer walks its checklist in order and adds each criterion that
   * holds to the running tally, so the score stays the weight of what is
   * listed.
   */
  function Run(t: Tally, checklist: seq<Criterion>, holding: set<Criterion>): (r: Tally)
    ensures Consistent(t) ==> Consistent(r)
    decreases |checklist|
  {
    if checklist == [] then t
    else Run(Add(t, checklist[0] in holding, checklist[0]), checklist[1..], holding)
  }

  /** Each checklist entry is listed as often as it occurs in the checklist when it holds, and not at all otherwise. */
  lemma {:induction false} RunCounts(t: Tally, checklist: seq<Criterion>, holding: set<Criterion>)
    ensures forall c :: multiset(Run(t, checklist, holding).criteria)[c]
                        == multiset(t.criteria)[c] + (if c in holding then multiset(checklist)[c] else 0)
    decreases |checklist|
  {
    if checklist != [] {
      assert checklist == [checklist[0]] + checklist[1..];
      RunCounts(Add(t, checklist[0] in holding, checklist[0]), checklist[1..], holding);
    }
  }

  /** The score moves by no more than the checklist's gains and losses. */
  lemma {:induction false} RunBounds(t: Tally, checklist: seq<Criterion>, holding: set<Criterion>)
    ensures t.score + Losses(checklist) <= Run(t, checklist, holding).score <= t.score + Gains(checklist)
    decreases |checklist|
  {
    if checklist != [] {
      RunBounds(Add(t, checklist[0] in holding, checklist[0]), checklist[1..], holding);
    }
  }

  /** The criteria listed from a fresh tally are the checklist entries that hold. */
  lemma RunMembers(checklist: seq<Criterion>, holding: set<Criterion>)
    ensures forall c :: c in Run(Start, checklist, holding).criteria <==> c in checklist && c in holding
  {
    var r := Run(Start, checklist, holding);
    RunCounts(Start, checklist, holding);
    forall c ensures c in r.criteria <==> c in checklist && c in holding {
      assert c in r.criteria <==> multiset(r.criteria)[c] > 0;
      assert c in checklist <==> multiset(checklist)[c] > 0;
    }
  }

  /** A checklist without repeated entries yields criteria without repeated entries. */
  lemma RunNoDuplicates(checklist: seq<Criterion>, holding: set<Criterion>)
    requires NoDuplicates(checklist)
    ensures NoDuplicates(Run(Start, checklist, holding).criteria)
  {
    RunCounts(Start, checklist, holding);
  }

  /** The weight a checklist adds for the criteria in `holding`, entry by entry. */
  function Gained(checklist: seq<Criterion>, holding: set<Criterion>): int {
    if checklist == [] then 0
    else (if checklist[0] in holding then Weight(checklist[0]) else 0) + Gained(checklist[1..], holding)
  }

  lemma {:induction false} RunScore(t: Tally, checklist: seq<Criterion>, holding: set<Criterion>)
    ensures Run(t, checklist, holding).score == t.score + Gained(checklist, holding)
    decreases |checklist|
  {
    if checklist != [] {
      RunScore(Add(t, checklist[0] in holding, checklist[0]), checklist[1..], holding);
    }
  }

  /** Switching one criterion on, and nothing else, adds its weight once per occurrence. */
  lemma {:induction false} GainedShift(checklist: seq<Criterion>, on: set<Criterion>, off: set<Criterion>, c0: Criterion)
    requires on == off + {c0} && c0 !in off
    ensures Gained(checklist, on) == Gained(checklist, off) + multiset(checklist)[c0] * Weight(c0)
    decreases |checklist|
  {
    if checklist != [] {
      assert checklist == [checklist[0]] + checklist[1..];
      GainedShift(checklist[1..], on, off, c0);
    }
  }

  /** Switching one criterion that occurs once on, and nothing else, adds exactly its weight to the score. */
  lemma RunShift(checklist: seq<Criterion>, on: set<Criterion>, off: set<Criterion>, c0: Criterion)
    requires on == off + {c0} && c0 !in off
    requires multiset(checklist)[c0] == 1
    ensures Run(Start, checklist, on).score == Run(Start, checklist, off).score + Weight(c0)
  {
    RunScore(Start, checklist, on);
    RunScore(Start, checklist, off);
    GainedShift(checklist, on, off, c0);
  }

  /** One category's result dictionary. Fields a category does not use stay "". */
  datatype CategoryResult = CategoryResult(
    met: bool,
    confidence: int,
    criteria: seq<Criterion>,
    agentCode: string,
    policyNumber: string,
    endorsementType: string,
    status: Status)

  // ---------------------------------------------------------------- quote

  /** What classify_cotizacion looks at, once the texts are upper-cased and searched. */
  datatype QuoteSignals = QuoteSignals(
    subjectKeyword: bool,
    agentCode: string,
    bodyKeyword: bool,
    hasSlip: bool,
    slipComplete: bool,
    quotePdf: bool,
    policyPdf: bool)

  function QuoteSignalsOf(cfg: Config, subject: string, body: string, info: AttachmentInfo): QuoteSignals {
    var asunto := Upper(subject);
    var cuerpo := Upper(body);
    QuoteSignals(
      FirstMatch(cfg.quoteSubject, asunto).Some?,
      SubjectThenBody(ExtractAgentCode(asunto), ExtractAgentCode(cuerpo)),
      FirstMatch(cfg.quoteBody, cuerpo).Some?,
      info.hasSlip, info.slipComplete, info.pdfCotizacion != [], info.pdfPoliza != [])
  }

  /** The criteria of classify_cotizacion, in the order the source tests them. */
  const QuoteChecklist: seq<Criterion> := [
    QuoteSubjectKeyword, QuoteAgentCode, QuoteBodyKeyword, QuoteSlipPresent,
    QuoteSlipComplete, QuoteSlipIncomplete, QuotePdfPresent, QuotePolicyDocuments]

  /** When each quote criterion holds. */
  predicate QuoteHolds(g: QuoteSignals, c: Criterion) {
    match c
    case QuoteSubjectKeyword => g.subjectKeyword
    case QuoteAgentCode => g.agentCode != ""
    case QuoteBodyKeyword => g.bodyKeyword
    case QuoteSlipPresent => g.hasSlip
    case QuoteSlipComplete => g.hasSlip && g.slipComplete
    case QuoteSlipIncomplete => g.hasSlip && !g.slipComplete
    case QuotePdfPresent => g.quotePdf
    case QuotePolicyDocuments => g.policyPdf
    case _ => false
  }

  lemma QuoteGains() ensures Gains(QuoteChecklist) == 125 {}
  lemma QuoteLosses() ensures Losses(QuoteChecklist) == -15 {}
  lemma QuoteDistinct() ensures NoDuplicates(QuoteChecklist) {}

  lemma QuoteOnce(c: Criterion)
    requires c in QuoteChecklist
    ensures multiset(QuoteChecklist)[c] == 1
  {
    QuoteDistinct();
  }

  lemma QuoteHoldsListed(g: QuoteSignals)
    ensures forall c :: QuoteHolds(g, c) ==> c in QuoteChecklist
  {
  }

  /** The quote criteria that hold. */
  function QuoteHolding(g: QuoteSignals): set<Criterion> {
    set c | c in QuoteChecklist && QuoteHolds(g, c)
  }

  /** The score and criteria of classify_cotizacion. */
  function QuoteTally(g: QuoteSignals): (t: Tally)
    ensures Consistent(t)
    ensures -15 <= t.score <= 125
    ensures NoDuplicates(t.criteria)
    ensures forall c :: c in t.criteria <==> QuoteHolds(g, c)
  {
    RunMembers(QuoteChecklist, QuoteHolding(g));
    QuoteHoldsListed(g);
    QuoteGains();
    QuoteLosses();
    QuoteDistinct();
    RunBounds(Start, QuoteChecklist, QuoteHolding(g));
    RunNoDuplicates(QuoteChecklist, QuoteHolding(g));
    Run(Start, QuoteChecklist, QuoteHolding(g))
  }

  /** The slip decides the status; without a slip, a met threshold gives "detected". */
  function QuoteStatus(g: QuoteSignals, met: bool): Status {
    var slipStatus := if g.hasSlip then (if g.slipComplete then QuoteComplete else QuotePending) else NoStatus;
    if slipStatus.NoStatus? && met then QuoteDetected else slipStatus
  }

  /** The result dictionary of classify_cotizacion for the given signals. */
  function QuoteResult(g: QuoteSignals): (r: CategoryResult)
    ensures -15 <= r.confidence <= ConfidenceCap
    ensures r.confidence == Min(ConfidenceCap, SumWeights(r.criteria))
    ensures r.met <==> r.confidence >= QuoteThreshold
  {
    var t := QuoteTally(g);
    var met := t.score >= QuoteThreshold;
    CategoryResult(met, Min(ConfidenceCap, t.score), t.criteria, g.agentCode, "", "", QuoteStatus(g, met))
  }

  /** Each quote criterion is reported once, exactly when it holds. */
  lemma QuoteCriteriaListed(g: QuoteSignals)
    ensures NoDuplicates(QuoteResult(g).criteria)
    ensures forall c :: c in QuoteResult(g).criteria <==> QuoteHolds(g, c)
  {
  }

  /**
   * The quote status: a slip fixes it (complete or pending) whatever the
   * score; without a slip it is "detected" exactly when the threshold is
   * met, and stays empty otherwise.
   */
  lemma QuoteStatusCases(g: QuoteSignals)
    ensures QuoteResult(g).status == QuoteComplete <==> g.hasSlip && g.slipComplete
    ensures QuoteResult(g).status == QuotePending <==> g.hasSlip && !g.slipComplete
    ensures QuoteResult(g).status == QuoteDetected <==> QuoteResult(g).met && !g.hasSlip
    ensures QuoteResult(g).status == NoStatus <==> !QuoteResult(g).met && !g.hasSlip
  {
  }

  lemma QuotePolicyHolding(g: QuoteSignals)
    requires g.policyPdf
    ensures QuoteHolding(g) == QuoteHolding(g.(policyPdf := false)) + {QuotePolicyDocuments}
    ensures QuotePolicyDocuments !in QuoteHolding(g.(policyPdf := false))
  {
    var g' := g.(policyPdf := false);
    forall c ensures c in QuoteHolding(g) <==> c in QuoteHolding(g') + {QuotePolicyDocuments} {
      if c != QuotePolicyDocuments {
        assert QuoteHolds(g, c) == QuoteHolds(g', c);
      }
    }
  }

  lemma QuotePolicyShift(on: set<Criterion>, off: set<Criterion>)
    requires on == off + {QuotePolicyDocuments} && QuotePolicyDocuments !in off
    ensures Run(Start, QuoteChecklist, on).score == Run(Start, QuoteChecklist, off).score - 15
  {
    QuoteOnce(QuotePolicyDocuments);
    RunShift(QuoteChecklist, on, off, QuotePolicyDocuments);
  }

  /**
   * A current-policy PDF costs the quote exactly 15 points, so with one
   * the other signals must reach 55 for the quote threshold to be met.
   */
  lemma QuotePolicyPenalty(g: QuoteSignals)
    requires g.policyPdf
    ensures QuoteTally(g).score == QuoteTally(g.(policyPdf := false)).score - 15
    ensures QuoteResult(g).met <==> QuoteTally(g.(policyPdf := false)).score >= QuoteThreshold + 15
  {
    QuotePolicyHolding(g);
    QuotePolicyShift(QuoteHolding(g), QuoteHolding(g.(policyPdf := false)));
  }

  /** classify_cotizacion. */
  function ClassifyQuote(cfg: Config, subject: string, body: string, info: AttachmentInfo): CategoryResult {
    QuoteResult(QuoteSignalsOf(cfg, subject, body, info))
  }

  // -------------------------------------------------------------- renewal

  /** What classify_renovacion looks at, once the texts are upper-cased and searched. */
  datatype RenewalSignals = RenewalSignals(
    subjectKeyword: bool,
    policyNumber: string,
    bodyKeyword: bool,
    renewalPdf: bool,
    policyDocuments: bool,
    quoteGuard: bool,
    totalAttachments: nat)

  function RenewalSignalsOf(cfg: Config, subject: string, body: string, info: AttachmentInfo): RenewalSignals {
    var asunto := Upper(subject);
    var cuerpo := Upper(body);
    RenewalSignals(
      FirstMatch(cfg.renewalSubject, asunto).Some?,
      SubjectThenBody(ExtractPolicyNumber(asunto), ExtractPolicyNumber(cuerpo)),
      FirstMatch(cfg.renewalBody, cuerpo).Some?,
      info.pdfRenovacion != [],
      info.pdfPoliza != [] && ContainsAny(asunto, ["RENOVACION", "RENOVAR"]),
      info.pdfCotizacion != [] && !Contains(asunto, "RENOVACION"),
      info.totalAttachments)
  }

  /** The criteria of classify_renovacion, in the order the source tests them. */
  const RenewalChecklist: seq<Criterion> := [
    RenewalSubjectKeyword, RenewalPolicyNumber, RenewalBodyKeyword,
    RenewalPdfPresent, RenewalPolicyDocuments, RenewalQuoteGuard]

  predicate RenewalHolds(g: RenewalSignals, c: Criterion) {
    match c
    case RenewalSubjectKeyword => g.subjectKeyword
    case RenewalPolicyNumber => g.policyNumber != ""
    case RenewalBodyKeyword => g.bodyKeyword
    case RenewalPdfPresent => g.renewalPdf
    case RenewalPolicyDocuments => g.policyDocuments
    case RenewalQuoteGuard => g.quoteGuard
    case _ => false
  }

  lemma RenewalGains() ensures Gains(RenewalChecklist) == 115 {}
  lemma RenewalLosses() ensures Losses(RenewalChecklist) == -20 {}
  lemma RenewalDistinct() ensures NoDuplicates(RenewalChecklist) {}

  lemma RenewalOnce(c: Criterion)
    requires c in RenewalChecklist
    ensures multiset(RenewalChecklist)[c] == 1
  {
    RenewalDistinct();
  }

  lemma RenewalHoldsListed(g: RenewalSignals)
    ensures forall c :: RenewalHolds(g, c) ==> c in RenewalChecklist
  {
  }

  /** The renewal criteria that hold. */
  function RenewalHolding(g: RenewalSignals): set<Criterion> {
    set c | c in RenewalChecklist && RenewalHolds(g, c)
  }

  /** The score and criteria of classify_renovacion. */
  function RenewalTally(g: RenewalSignals): (t: Tally)
    ensures Consistent(t)
    ensures -20 <= t.score <= 115
    ensures NoDuplicates(t.criteria)
    ensures forall c :: c in t.criteria <==> RenewalHolds(g, c)
  {
    RunMembers(RenewalChecklist, RenewalHolding(g));
    RenewalHoldsListed(g);
    RenewalGains();
    RenewalLosses();
    RenewalDistinct();
    RunBounds(Start, RenewalChecklist, RenewalHolding(g));
    RunNoDuplicates(RenewalChecklist, RenewalHolding(g));
    Run(Start, RenewalChecklist, RenewalHolding(g))
  }

  /** A status only once the threshold is met: complete with attachments and a policy number. */
  function RenewalStatus(g: RenewalSignals, met: bool): Status {
    if !met then NoStatus
    else if g.totalAttachments > 0 && g.policyNumber != "" then RenewalComplete
    else RenewalPending
  }

  /** The result dictionary of classify_renovacion for the given signals. */
  function RenewalResult(g: RenewalSignals): (r: CategoryResult)
    ensures -20 <= r.confidence <= ConfidenceCap
    ensures r.confidence == Min(ConfidenceCap, SumWeights(r.criteria))
    ensures r.met <==> r.confidence >= RenewalThreshold
  {
    var t := RenewalTally(g);
    var met := t.score >= RenewalThreshold;
    CategoryResult(met, Min(ConfidenceCap, t.score), t.criteria, "", g.policyNumber, "", RenewalStatus(g, met))
  }

  lemma RenewalCriteriaListed(g: RenewalSignals)
    ensures NoDuplicates(RenewalResult(g).criteria)
    ensures forall c :: c in RenewalResult(g).criteria <==> RenewalHolds(g, c)
  {
  }

  /** A renewal has a status exactly when it is met; complete needs attachments and a policy number. */
  lemma RenewalStatusCases(g: RenewalSignals)
    ensures RenewalResult(g).status == NoStatus <==> !RenewalResult(g).met
    ensures RenewalResult(g).status == RenewalComplete <==> RenewalResult(g).met && g.totalAttachments > 0 && g.policyNumber != ""
    ensures RenewalResult(g).status == RenewalPending <==> RenewalResult(g).met && !(g.totalAttachments > 0 && g.policyNumber != "")
  {
  }

  lemma RenewalGuardHolding(g: RenewalSignals)
    requires g.quoteGuard
    ensures RenewalHolding(g) == RenewalHolding(g.(quoteGuard := false)) + {RenewalQuoteGuard}
    ensures RenewalQuoteGuard !in RenewalHolding(g.(quoteGuard := false))
  {
    var g' := g.(quoteGuard := false);
    forall c ensures c in RenewalHolding(g) <==> c in RenewalHolding(g') + {RenewalQuoteGuard} {
      if c != RenewalQuoteGuard {
        assert RenewalHolds(g, c) == RenewalHolds(g', c);
      }
    }
  }

  lemma RenewalGuardShift(on: set<Criterion>, off: set<Criterion>)
    requires on == off + {RenewalQuoteGuard} && RenewalQuoteGuard !in off
    ensures Run(Start, RenewalChecklist, on).score == Run(Start, RenewalChecklist, off).score - 20
  {
    RenewalOnce(RenewalQuoteGuard);
    RunShift(RenewalChecklist, on, off, RenewalQuoteGuard);
  }

  /**
   * A quote PDF under a subject without RENOVACION costs the renewal
   * exactly 20 points, so the other signals must then reach 60.
   */
  lemma RenewalQuotePenalty(g: RenewalSignals)
    requires g.quoteGuard
    ensures RenewalTally(g).score == RenewalTally(g.(quoteGuard := false)).score - 20
    ensures RenewalResult(g).met <==> RenewalTally(g.(quoteGuard := false)).score >= RenewalThreshold + 20
  {
    RenewalGuardHolding(g);
    RenewalGuardShift(RenewalHolding(g), RenewalHolding(g.(quoteGuard := false)));
  }

  /** classify_renovacion. */
  function ClassifyRenewal(cfg: Config, subject: string, body: string, info: AttachmentInfo): CategoryResult {
    RenewalResult(RenewalSignalsOf(cfg, subject, body, info))
  }

  // ---------------------------------------------------------- endorsement

  /** The endorsement subtype named in the upper-cased subject, first test first. */
  function EndorsementSubtype(asunto: string): (k: string)
    ensures k in {"", "A", "B", "BP", "ESPECIAL"}
    ensures k == "A" <==> Contains(asunto, "ENDOSO A")
    ensures k == "B" <==> !Contains(asunto, "ENDOSO A") && Contains(asunto, "ENDOSO B")
    ensures k == "BP" <==> !Contains(asunto, "ENDOSO A") && !Contains(asunto, "ENDOSO B")
                           && Contains(asunto, "ENDOSO DE BP")
    ensures k == "ESPECIAL" <==> !Contains(asunto, "ENDOSO A") && !Contains(asunto, "ENDOSO B")
                                 && !Contains(asunto, "ENDOSO DE BP") && Contains(asunto, "ENDOSO ESPECIAL")
    ensures k == "" <==> !Contains(asunto, "ENDOSO A") && !Contains(asunto, "ENDOSO B")
                         && !Contains(asunto, "ENDOSO DE BP") && !Contains(asunto, "ENDOSO ESPECIAL")
  {
    if Contains(asunto, "ENDOSO A") then "A"
    else if Contains(asunto, "ENDOSO B") then "B"
    else if Contains(asunto, "ENDOSO DE BP") then "BP"
    else if Contains(asunto, "ENDOSO ESPECIAL") then "ESPECIAL"
    else ""
  }

  /** What classify_endoso looks at, once the texts are upper-cased and searched. */
  datatype EndorsementSignals = EndorsementSignals(
    subjectKeyword: bool,
    subtype: string,
    bodyKeyword: bool,
    policyNumber: string,
    endorsementPdf: bool,
    policyPdf: bool,
    supportDocuments: bool)

  /** The subtype is only looked for once a subject pattern has matched. */
  function EndorsementSignalsOf(cfg: Config, subject: string, body: string, info: AttachmentInfo): (g: EndorsementSignals)
    ensures g.subtype != "" ==> g.subjectKeyword
    ensures g.supportDocuments ==> g.policyPdf
  {
    var asunto := Upper(subject);
    var cuerpo := Upper(body);
    var subjectKeyword := FirstMatch(cfg.endorsementSubject, asunto).Some?;
    EndorsementSignals(
      subjectKeyword,
      if subjectKeyword then EndorsementSubtype(asunto) else "",
      FirstMatch(cfg.endorsementBody, cuerpo).Some?,
      SubjectThenBody(ExtractPolicyNumber(asunto), ExtractPolicyNumber(cuerpo)),
      info.pdfEndoso != [],
      info.pdfPoliza != [],
      info.pdfPoliza != [] && ContainsAny(asunto, ["ENDOSO", "MODIFICACION", "CORRECCION"]))
  }

  /** The criteria of classify_endoso, in the order the source tests them. */
  const EndorsementChecklist: seq<Criterion> := [
    EndorsementSubjectKeyword, EndorsementBodyKeyword, EndorsementPolicyReference,
    EndorsementPdfPresent, EndorsementSupportDocuments]

  predicate EndorsementHolds(g: EndorsementSignals, c: Criterion) {
    match c
    case EndorsementSubjectKeyword => g.subjectKeyword
    case EndorsementBodyKeyword => g.bodyKeyword
    case EndorsementPolicyReference => g.policyNumber != ""
    case EndorsementPdfPresent => g.endorsementPdf
    case EndorsementSupportDocuments => g.supportDocuments
    case _ => false
  }

  lemma EndorsementGains() ensures Gains(EndorsementChecklist) == 110 {}
  lemma EndorsementLosses() ensures Losses(EndorsementChecklist) == 0 {}
  lemma EndorsementDistinct() ensures NoDuplicates(EndorsementChecklist) {}

  lemma EndorsementHoldsListed(g: EndorsementSignals)
    ensures forall c :: EndorsementHolds(g, c) ==> c in EndorsementChecklist
  {
  }

  /** The endorsement criteria that hold. */
  function EndorsementHolding(g: EndorsementSignals): set<Criterion> {
    set c | c in EndorsementChecklist && EndorsementHolds(g, c)
  }

  /** The score and criteria of classify_endoso. */
  function EndorsementTally(g: EndorsementSignals): (t: Tally)
    ensures Consistent(t)
    ensures 0 <= t.score <= 110
    ensures NoDuplicates(t.criteria)
    ensures forall c :: c in t.criteria <==> EndorsementHolds(g, c)
  {
    RunMembers(EndorsementChecklist, EndorsementHolding(g));
    EndorsementHoldsListed(g);
    EndorsementGains();
    EndorsementLosses();
    EndorsementDistinct();
    RunBounds(Start, EndorsementChecklist, EndorsementHolding(g));
    RunNoDuplicates(EndorsementChecklist, EndorsementHolding(g));
    Run(Start, EndorsementChecklist, EndorsementHolding(g))
  }

  /** A status only once the threshold is met: complete with a policy number and a supporting PDF. */
  function EndorsementStatus(g: EndorsementSignals, met: bool): Status {
    if !met then NoStatus
    else if g.policyNumber != "" && (g.endorsementPdf || g.policyPdf) then EndorsementComplete
    else EndorsementIncomplete
  }

  /** The result dictionary of classify_endoso for the given signals. */
  function EndorsementResult(g: EndorsementSignals): (r: CategoryResult)
    ensures 0 <= r.confidence <= ConfidenceCap
    ensures r.confidence == Min(ConfidenceCap, SumWeights(r.criteria))
    ensures r.met <==> r.confidence >= EndorsementThreshold
  {
    var t := EndorsementTally(g);
    var met := t.score >= EndorsementThreshold;
    CategoryResult(met, Min(ConfidenceCap, t.score), t.criteria, "", g.policyNumber, g.subtype, EndorsementStatus(g, met))
  }

  lemma EndorsementCriteriaListed(g: EndorsementSignals)
    ensures NoDuplicates(EndorsementResult(g).criteria)
    ensures forall c :: c in EndorsementResult(g).criteria <==> EndorsementHolds(g, c)
  {
  }

  /** An endorsement has a status exactly when it is met; complete needs a policy number and a PDF. */
  lemma EndorsementStatusCases(g: EndorsementSignals)
    ensures EndorsementResult(g).status == NoStatus <==> !EndorsementResult(g).met
    ensures EndorsementResult(g).status == EndorsementComplete
            <==> EndorsementResult(g).met && g.policyNumber != "" && (g.endorsementPdf || g.policyPdf)
    ensures EndorsementResult(g).status == EndorsementIncomplete
            <==> EndorsementResult(g).met && !(g.policyNumber != "" && (g.endorsementPdf || g.policyPdf))
  {
  }

  /** classify_endoso. */
  function ClassifyEndorsement(cfg: Config, subject: string, body: string, info: AttachmentInfo): CategoryResult {
    EndorsementResult(EndorsementSignalsOf(cfg, subject, body, info))
  }
}
