/**
 * reclassify_all_emails: every entry of an existing results file is
 * classified again with the current scorers. An entry whose message can
 * no longer be classified is kept as it was; the counts per primary type
 * are taken before and after, and the entries that move out of
 * "sin_clasificar" are counted as improved.
 */
module Reclassify {
  import opened Wrappers
  import opened EmailIds
  import opened Scoring
  import opened Classifier

  /** The four counters of one pass over the entries (stats_before / stats_after). */
  datatype TypeStats = TypeStats(cotizacion: nat, renovacion: nat, endoso: nat, sinClasificar: nat)

  /** The entries of each primary type. */
  function StatsOf(rs: seq<EmailResult>): TypeStats {
    TypeStats(
      CountType(rs, Typed(Cotizacion)),
      CountType(rs, Typed(Renovacion)),
      CountType(rs, Typed(Endoso)),
      CountType(rs, Unclassified))
  }

  /** Every entry carries one of the four types, so the counters add up to the number of entries. */
  lemma StatsSumToTotal(rs: seq<EmailResult>)
    ensures var st := StatsOf(rs);
      st.cotizacion + st.renovacion + st.endoso + st.sinClasificar == |rs|
  {
    CountsSumToTotal(rs);
  }

  /** The counting loop, run once on the old entries and once on the new ones. */
  method CountTypes(rs: seq<EmailResult>) returns (st: TypeStats)
    ensures st == StatsOf(rs)
  {
    st := TypeStats(0, 0, 0, 0);
    var i := 0;
    while i < |rs|
      invariant 0 <= i <= |rs|
      invariant st == StatsOf(rs[..i])
    {
      var k := rs[i].primary.kind;
      assert rs[..i + 1] == rs[..i] + [rs[i]];
      CountTypeAppend(rs[..i], rs[i], Typed(Cotizacion));
      CountTypeAppend(rs[..i], rs[i], Typed(Renovacion));
      CountTypeAppend(rs[..i], rs[i], Typed(Endoso));
      CountTypeAppend(rs[..i], rs[i], Unclassified);
      match k {
        case Typed(Cotizacion) => st := st.(cotizacion := st.cotizacion + 1);
        case Typed(Renovacion) => st := st.(renovacion := st.renovacion + 1);
        case Typed(Endoso) => st := st.(endoso := st.endoso + 1);
        case Unclassified => st := st.(sinClasificar := st.sinClasificar + 1);
      }
      i := i + 1;
    }
    assert rs[..i] == rs;
  }

  /** The new entry for an old one: the fresh result, or the old entry when classify_email reports an error. */
  function Redo(cfg: Config, box: Mailbox, e: EmailResult): (r: EmailResult)
    ensures r.emailId == e.emailId
    ensures e.emailId !in box.metadata ==> r == e
    ensures e.emailId in box.metadata ==> ClassifyEmail(cfg, box, e.emailId) == Ok(r)
  {
    match ClassifyEmail(cfg, box, e.emailId)
    case Ok(res) => res
    case Err(_) => e
  }

  /** A move out of "sin_clasificar" into one of the three categories. */
  predicate Improved(before: EmailResult, after: EmailResult) {
    before.primary.kind == Unclassified && after.primary.kind != Unclassified
  }

  /** The new entries, one per old entry and in the same order. */
  function RedoAll(cfg: Config, box: Mailbox, es: seq<EmailResult>): (rs: seq<EmailResult>)
    ensures |rs| == |es|
  {
    if es == [] then [] else RedoAll(cfg, box, es[..|es| - 1]) + [Redo(cfg, box, es[|es| - 1])]
  }

  /** The number of entries whose reclassification is an improvement. */
  function ImprovedCount(cfg: Config, box: Mailbox, es: seq<EmailResult>): (n: nat)
    ensures n <= |es|
  {
    if es == [] then 0
    else
      var e := es[|es| - 1];
      ImprovedCount(cfg, box, es[..|es| - 1]) + if Improved(e, Redo(cfg, box, e)) then 1 else 0
  }

  /** Entry i of the new list is the reclassification of entry i of the old list. */
  lemma {:induction false} RedoAllAt(cfg: Config, box: Mailbox, es: seq<EmailResult>, i: nat)
    requires i < |es|
    ensures RedoAll(cfg, box, es)[i] == Redo(cfg, box, es[i])
    ensures RedoAll(cfg, box, es)[i].emailId == es[i].emailId
    decreases |es|
  {
    if i < |es| - 1 {
      RedoAllAt(cfg, box, es[..|es| - 1], i);
    }
  }

  /** Reclassifying a reclassified entry changes nothing: the fresh result is what classify_email gives for its own id. */
  lemma RedoIdempotent(cfg: Config, box: Mailbox, e: EmailResult)
    ensures Redo(cfg, box, Redo(cfg, box, e)) == Redo(cfg, box, e)
  {
  }

  /** Running the reclassification twice gives the entries of running it once. */
  lemma {:induction false} RedoAllIdempotent(cfg: Config, box: Mailbox, es: seq<EmailResult>)
    ensures RedoAll(cfg, box, RedoAll(cfg, box, es)) == RedoAll(cfg, box, es)
    decreases |es|
  {
    if es != [] {
      var init := es[..|es| - 1];
      var rs := RedoAll(cfg, box, es);
      RedoAllIdempotent(cfg, box, init);
      assert rs[..|rs| - 1] == RedoAll(cfg, box, init);
      RedoIdempotent(cfg, box, es[|es| - 1]);
    }
  }

  /** A second run finds nothing to improve. */
  lemma {:induction false} SecondRunImprovesNothing(cfg: Config, box: Mailbox, es: seq<EmailResult>)
    ensures ImprovedCount(cfg, box, RedoAll(cfg, box, es)) == 0
    decreases |es|
  {
    if es != [] {
      var init := es[..|es| - 1];
      var rs := RedoAll(cfg, box, es);
      SecondRunImprovesNothing(cfg, box, init);
      assert rs[..|rs| - 1] == RedoAll(cfg, box, init);
      RedoIdempotent(cfg, box, es[|es| - 1]);
    }
  }

  /** Only entries that were "sin_clasificar" can improve. */
  lemma {:induction false} ImprovedWithinUnclassified(cfg: Config, box: Mailbox, es: seq<EmailResult>)
    ensures ImprovedCount(cfg, box, es) <= CountType(es, Unclassified)
    decreases |es|
  {
    if es != [] {
      ImprovedWithinUnclassified(cfg, box, es[..|es| - 1]);
    }
  }

  /**
   * An old "sin_clasificar" entry either improves or is still
   * "sin_clasificar" afterwards (an error keeps it as it was), so the
   * unclassified count falls by at most the number of improvements.
   */
  lemma {:induction false} UnclassifiedFallsByImproved(cfg: Config, box: Mailbox, es: seq<EmailResult>)
    ensures CountType(es, Unclassified)
            <= ImprovedCount(cfg, box, es) + CountType(RedoAll(cfg, box, es), Unclassified)
    decreases |es|
  {
    if es != [] {
      var init := es[..|es| - 1];
      var rs := RedoAll(cfg, box, es);
      UnclassifiedFallsByImproved(cfg, box, init);
      assert rs[..|rs| - 1] == RedoAll(cfg, box, init);
    }
  }

  /** The entry the aggregator keeps for a stem is what classify_email gives again for its id. */
  lemma KeptIsFixed(cfg: Config, box: Mailbox, id: string)
    ensures var k := Kept(cfg, box, id);
      k != [] ==> Redo(cfg, box, k[0]) == k[0]
  {
    var k := Kept(cfg, box, id);
    if k != [] {
      assert ClassifyEmail(cfg, box, id) == Ok(k[0]);
    }
  }

  /** A results file the classifier has just written for the same mailbox is left as it is. */
  lemma {:induction false} ClassifiedIsFixed(cfg: Config, box: Mailbox, stems: seq<string>)
    ensures RedoAll(cfg, box, Classified(cfg, box, stems)) == Classified(cfg, box, stems)
    decreases |stems|
  {
    if stems != [] {
      var id := stems[|stems| - 1];
      var init := Classified(cfg, box, stems[..|stems| - 1]);
      var k := Kept(cfg, box, id);
      var c := Classified(cfg, box, stems);
      ClassifiedIsFixed(cfg, box, stems[..|stems| - 1]);
      assert c == init + k;
      if k == [] {
        assert c == init;
      } else {
        KeptIsFixed(cfg, box, id);
        assert c[..|c| - 1] == init;
      }
    }
  }

  /** The parts of the results file this script reads: the `emails` list, which may be missing. */
  datatype StoredFile = StoredFile(emails: Option<seq<EmailResult>>)

  /** existing_data.get('emails', []) */
  function EntriesOf(f: StoredFile): seq<EmailResult> {
    if f.emails.Some? then f.emails.value else []
  }

  /** The classification_summary of the rewritten file. */
  datatype Summary = Summary(
    totalEmails: nat,
    counts: TypeStats,
    accuracyImprovement: string,
    reclassificationDate: string)

  /** What one run produces: both counters, the improvements, the new file's contents and the backup. */
  datatype Outcome = Outcome(
    before: TypeStats,
    after: TypeStats,
    improved: nat,
    summary: Summary,
    emails: seq<EmailResult>,
    backup: StoredFile)

  /** The text of accuracy_improvement. */
  function ImprovementNote(improved: nat): string {
    Decimal(improved) + " emails mejorados"
  }

  /** One turn of the loop: the new entry and whether it counts as an improvement. */
  method ReclassifyOne(cfg: Config, box: Mailbox, e: EmailResult) returns (r: EmailResult, better: bool)
    ensures r == Redo(cfg, box, e)
    ensures better == Improved(e, r)
  {
    var res := ClassifyEmail(cfg, box, e.emailId);
    if res.Ok? {
      r := res.value;
      better := e.primary.kind == Unclassified && r.primary.kind != Unclassified;
    } else {
      r := e;
      better := false;
    }
  }

  /** The loop over the old entries. */
  method ReclassifyEntries(cfg: Config, box: Mailbox, es: seq<EmailResult>) returns (rs: seq<EmailResult>, improved: nat)
    ensures rs == RedoAll(cfg, box, es)
    ensures improved == ImprovedCount(cfg, box, es)
  {
    rs := [];
    improved := 0;
    var i := 0;
    while i < |es|
      invariant 0 <= i <= |es|
      invariant rs == RedoAll(cfg, box, es[..i])
      invariant improved == ImprovedCount(cfg, box, es[..i])
    {
      var r, better := ReclassifyOne(cfg, box, es[i]);
      assert es[..i + 1][..i] == es[..i];
      rs := rs + [r];
      if better {
        improved := improved + 1;
      }
      i := i + 1;
    }
    assert es[..i] == es;
  }

  /**
   * reclassify_all_emails: None when there is no results file; otherwise
   * the counts before, the new entries, the counts after, the number of
   * improvements, the new summary (stamped with `now`) and the old file
   * kept as the backup.
   */
  method ReclassifyAllEmails(cfg: Config, box: Mailbox, file: Option<StoredFile>, now: string)
    returns (out: Option<Outcome>)
    ensures file.None? ==> out.None?
    ensures file.Some? ==> out.Some?
    ensures file.Some? ==>
      var es := EntriesOf(file.value);
      var o := out.value;
      && o.before == StatsOf(es)
      && o.emails == RedoAll(cfg, box, es)
      && o.improved == ImprovedCount(cfg, box, es)
      && o.after == StatsOf(o.emails)
      && o.summary == Summary(|o.emails|, o.after, ImprovementNote(o.improved), now)
      && o.backup == file.value
  {
    if file.None? {
      return None;
    }
    var es := EntriesOf(file.value);
    var before := CountTypes(es);
    var rs, improved := ReclassifyEntries(cfg, box, es);
    var after := CountTypes(rs);
    var summary := Summary(|rs|, after, ImprovementNote(improved), now);
    out := Some(Outcome(before, after, improved, summary, rs, file.value));
  }
}
