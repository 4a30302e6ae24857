/**
 * PSTExtractor: a resumable walk over an archive's folder tree. Every
 * visited message consumes the next value of the run counter and the id
 * `email_NNNNNN`; ids already listed in the progress data are skipped; a
 * message's metadata record is stored and its id appended to the progress
 * list; progress is checkpointed every tenth message and at the end.
 *
 * The archive is a tree of values; the metadata directory is a map from id
 * to record; the progress file is a value the extractor rewrites. What the
 * archive library would raise is part of the input (a `Probe`, or a flag
 * saying that a write fails).
 */
module Extraction {
  import opened Wrappers
  import opened Sequences
  import opened Text
  import opened EmailIds

  // ------------------------------------------------------------ the archive

  /** An attribute of an archive object: present, present but raising when read, or absent. */
  datatype Probe<T> = Available(value: T) | Raises | Absent

  /**
   * One attachment object. An empty name stands for a missing or empty
   * attribute; `readFails` says that reading its size or data, or writing
   * its file, raises.
   */
  datatype ArchiveAttachment = ArchiveAttachment(name: string, longFilename: string, size: nat, readFails: bool)

  /**
   * One message object. `countMethod` is get_number_of_attachments and
   * `countProperty` is number_of_attachments; `attachments[i]` is what
   * get_attachment(i) returns (None for a falsy object); an index past the
   * end raises. The two flags say that writing the .eml or the metadata
   * file fails.
   */
  datatype ArchiveMessage = ArchiveMessage(
    subject: string,
    senderName: string,
    countMethod: Probe<nat>,
    countProperty: Probe<nat>,
    attachments: seq<Option<ArchiveAttachment>>,
    emlWriteFails: bool,
    metadataWriteFails: bool)

  /** A folder: its name ("" when it has none), its messages and its subfolders, by index. */
  datatype Folder = Folder(name: string, messages: seq<Option<ArchiveMessage>>, subfolders: seq<Option<Folder>>)

  /**
   * What pypff makes of the archive file: it cannot be opened, it opens but
   * get_root_folder raises, or it opens with the given root folder.
   */
  datatype Archive = Unopenable | RootUnreadable | Opened(root: Folder)

  // ------------------------------------------------------------ attachments

  /** The entry extract_attachments lists for one saved attachment. */
  datatype SavedAttachment = SavedAttachment(filename: string, size: nat, path: string)

  /** The attachment count: the method, else the property, else 0; None when reading it raises. */
  function AttachmentCount(m: ArchiveMessage): (n: Option<nat>)
    ensures m.countMethod.Available? ==> n == Some(m.countMethod.value)
    ensures m.countMethod.Raises? ==> n == None
    ensures m.countMethod.Absent? && m.countProperty.Available? ==> n == Some(m.countProperty.value)
    ensures m.countMethod.Absent? && m.countProperty.Absent? ==> n == Some(0)
    ensures m.countMethod.Absent? && m.countProperty.Raises? ==> n == None
  {
    match m.countMethod
    case Available(k) => Some(k)
    case Raises => None
    case Absent =>
      match m.countProperty
      case Available(k) => Some(k)
      case Raises => None
      case Absent => Some(0)
  }

  const AttachmentStem: string := "attachment_"

  /** The saved file name: `name`, else `long_filename`, else `attachment_<index>`. */
  function FileNameOf(a: ArchiveAttachment, index: nat): (f: string)
    ensures a.name != "" ==> f == a.name
    ensures a.name == "" && a.longFilename != "" ==> f == a.longFilename
    ensures a.name == "" && a.longFilename == "" ==>
      && StartsWith(f, AttachmentStem) && |f| > |AttachmentStem|
      && AllDigits(f[|AttachmentStem|..]) && ParseDecimal(f[|AttachmentStem|..]) == index
  {
    if a.name != "" then a.name
    else if a.longFilename != "" then a.longFilename
    else
      var f := AttachmentStem + Decimal(index);
      assert f[..|AttachmentStem|] == AttachmentStem;
      assert f[|AttachmentStem|..] == Decimal(index);
      ParseDecimalOfDecimal(index);
      f
  }

  /** The entry for the attachment at `index` of message `id`, relative to the output directory. */
  function EntryOf(id: string, a: ArchiveAttachment, index: nat): SavedAttachment {
    var f := FileNameOf(a, index);
    SavedAttachment(f, a.size, "attachments/" + id + "/" + f)
  }

  /** What the attachment at `index` contributes: nothing when it is falsy or fails. */
  function Contribution(atts: seq<Option<ArchiveAttachment>>, id: string, index: nat): seq<SavedAttachment>
    requires index < |atts|
  {
    match atts[index]
    case None => []
    case Some(a) => if a.readFails then [] else [EntryOf(id, a, index)]
  }

  /** The entries for the attachments with index below k, in index order. */
  function SavedUpTo(atts: seq<Option<ArchiveAttachment>>, id: string, k: nat): (r: seq<SavedAttachment>)
    requires k <= |atts|
    ensures |r| <= k
  {
    if k == 0 then [] else SavedUpTo(atts, id, k - 1) + Contribution(atts, id, k - 1)
  }

  /**
   * extract_attachments: [] when the count cannot be read; otherwise the
   * entries for indices below the count, stopping where get_attachment
   * raises (the entries gathered so far are kept).
   */
  function AttachmentsOf(m: ArchiveMessage, id: string): (r: seq<SavedAttachment>)
    ensures AttachmentCount(m).None? ==> r == []
    ensures AttachmentCount(m).Some? ==> |r| <= AttachmentCount(m).value
    ensures |r| <= |m.attachments|
  {
    match AttachmentCount(m)
    case None => []
    case Some(n) => SavedUpTo(m.attachments, id, if n <= |m.attachments| then n else |m.attachments|)
  }

  /** The entries for the attachments with index in [lo, k), in index order. */
  function SavedBetween(atts: seq<Option<ArchiveAttachment>>, id: string, lo: nat, k: nat): seq<SavedAttachment>
    requires lo <= k <= |atts|
    decreases k
  {
    if k == lo then [] else SavedBetween(atts, id, lo, k - 1) + Contribution(atts, id, k - 1)
  }

  lemma {:induction false} SavedSplit(atts: seq<Option<ArchiveAttachment>>, id: string, lo: nat, k: nat)
    requires lo <= k <= |atts|
    ensures SavedUpTo(atts, id, k) == SavedUpTo(atts, id, lo) + SavedBetween(atts, id, lo, k)
    decreases k
  {
    if k > lo {
      SavedSplit(atts, id, lo, k - 1);
    }
  }

  /** Attachments that agree from index lo on contribute the same entries there. */
  lemma {:induction false} SavedBetweenAgree(
    atts: seq<Option<ArchiveAttachment>>, other: seq<Option<ArchiveAttachment>>, id: string, lo: nat, k: nat)
    requires lo <= k <= |atts| == |other|
    requires forall j :: lo <= j < k ==> atts[j] == other[j]
    ensures SavedBetween(atts, id, lo, k) == SavedBetween(other, id, lo, k)
    decreases k
  {
    if k > lo {
      SavedBetweenAgree(atts, other, id, lo, k - 1);
      assert Contribution(atts, id, k - 1) == Contribution(other, id, k - 1);
    }
  }

  /**
   * A failure on one attachment drops only its own entry: the entries before
   * and after it are the same, in the same order, with or without it.
   */
  lemma FailureSkipsOnlyThatEntry(
    atts: seq<Option<ArchiveAttachment>>, id: string, i: nat, a: ArchiveAttachment, k: nat)
    requires i < k <= |atts| && atts[i] == Some(a) && !a.readFails
    ensures var failing := atts[i := Some(a.(readFails := true))];
      var rest := SavedBetween(atts, id, i + 1, k);
      && SavedUpTo(atts, id, k) == SavedUpTo(atts, id, i) + [EntryOf(id, a, i)] + rest
      && SavedUpTo(failing, id, k) == SavedUpTo(atts, id, i) + rest
  {
    ReadableSplit(atts, id, i, a, k);
    FailingSplit(atts, id, i, a, k);
  }

  /** Split around a readable attachment: the entries before it, its own entry, the rest. */
  lemma ReadableSplit(atts: seq<Option<ArchiveAttachment>>, id: string, i: nat, a: ArchiveAttachment, k: nat)
    requires i < k <= |atts| && atts[i] == Some(a) && !a.readFails
    ensures SavedUpTo(atts, id, k) == SavedUpTo(atts, id, i) + [EntryOf(id, a, i)] + SavedBetween(atts, id, i + 1, k)
  {
    SavedSplit(atts, id, i + 1, k);
    assert SavedUpTo(atts, id, i + 1) == SavedUpTo(atts, id, i) + [EntryOf(id, a, i)];
  }

  /** The same split once that attachment fails: the entries before it and the rest only. */
  lemma FailingSplit(atts: seq<Option<ArchiveAttachment>>, id: string, i: nat, a: ArchiveAttachment, k: nat)
    requires i < k <= |atts| && atts[i] == Some(a) && !a.readFails
    ensures SavedUpTo(atts[i := Some(a.(readFails := true))], id, k) == SavedUpTo(atts, id, i) + SavedBetween(atts, id, i + 1, k)
  {
    var failing := atts[i := Some(a.(readFails := true))];
    SavedSplit(failing, id, i + 1, k);
    SavedBetweenAgree(atts, failing, id, i + 1, k);
    SavedBetweenAgree(atts, failing, id, 0, i);
    SavedSplit(atts, id, 0, i);
    SavedSplit(failing, id, 0, i);
    assert SavedUpTo(failing, id, i + 1) == SavedUpTo(failing, id, i) + Contribution(failing, id, i);
    assert Contribution(failing, id, i) == [];
  }

  /** The indices below k whose attachment exists and can be read. */
  function ReadableBelow(atts: seq<Option<ArchiveAttachment>>, k: nat): set<nat>
    requires k <= |atts|
  {
    set j: nat | j < k && atts[j].Some? && !atts[j].value.readFails
  }

  /** Whether the attachment at index i is saved (it exists and can be read). */
  predicate Readable(atts: seq<Option<ArchiveAttachment>>, i: nat)
    requires i < |atts|
  {
    atts[i].Some? && !atts[i].value.readFails
  }

  lemma ReadableStep(atts: seq<Option<ArchiveAttachment>>, k: nat)
    requires 0 < k <= |atts|
    ensures |ReadableBelow(atts, k)| == |ReadableBelow(atts, k - 1)| + (if Readable(atts, k - 1) then 1 else 0)
  {
    var below := ReadableBelow(atts, k - 1);
    if Readable(atts, k - 1) {
      assert ReadableBelow(atts, k) == below + {k - 1};
      assert |below + {k - 1}| == |below| + 1;
    } else {
      assert ReadableBelow(atts, k) == below;
    }
  }

  lemma SavedStep(atts: seq<Option<ArchiveAttachment>>, id: string, k: nat)
    requires 0 < k <= |atts|
    ensures |SavedUpTo(atts, id, k)| == |SavedUpTo(atts, id, k - 1)| + (if Readable(atts, k - 1) then 1 else 0)
  {
  }

  /** Entries are never merged: every readable attachment below k adds exactly one entry. */
  lemma {:induction false} OneEntryPerReadable(atts: seq<Option<ArchiveAttachment>>, id: string, k: nat)
    requires k <= |atts|
    ensures |SavedUpTo(atts, id, k)| == |ReadableBelow(atts, k)|
    decreases k
  {
    if k > 0 {
      OneEntryPerReadable(atts, id, k - 1);
      ReadableStep(atts, k);
      SavedStep(atts, id, k);
    }
  }

  // ------------------------------------------------------------ folder walk

  /** The name process_folder reports a folder under. */
  function ChildPath(parent: string, name: string): string {
    if name == "" then parent else if parent == "" then name else parent + "/" + name
  }

  /** The non-empty names of a chain of folders. */
  function Named(names: seq<string>): (r: seq<string>)
    ensures forall i :: 0 <= i < |r| ==> r[i] != ""
  {
    if names == [] then []
    else if names[0] == "" then Named(names[1..])
    else [names[0]] + Named(names[1..])
  }

  /** Names joined by "/". */
  function Join(parts: seq<string>): string {
    if parts == [] then ""
    else if |parts| == 1 then parts[0]
    else parts[0] + "/" + Join(parts[1..])
  }

  lemma {:induction false} NamedAppend(names: seq<string>, n: string)
    ensures Named(names + [n]) == Named(names) + (if n == "" then [] else [n])
  {
    if names != [] {
      assert (names + [n])[1..] == names[1..] + [n];
      NamedAppend(names[1..], n);
    } else {
      assert [n][1..] == [];
    }
  }

  lemma {:induction false} JoinAppend(parts: seq<string>, n: string)
    requires parts != []
    ensures Join(parts + [n]) == Join(parts) + "/" + n
  {
    if |parts| > 1 {
      assert (parts + [n])[1..] == parts[1..] + [n];
      JoinAppend(parts[1..], n);
    }
  }

  /**
   * The name of a folder reached through a chain of folders is the chain's
   * non-empty names joined by "/": nameless folders add nothing, and the
   * root's empty path adds no leading separator.
   */
  lemma {:induction false} ChildPathJoins(names: seq<string>, n: string)
    ensures ChildPath(Join(Named(names)), n) == Join(Named(names + [n]))
  {
    NamedAppend(names, n);
    var parts := Named(names);
    if n != "" {
      if parts == [] {
        assert Join(parts) == "";
        assert parts + [n] == [n];
      } else {
        JoinAppend(parts, n);
        assert Join(parts) != "" by {
          JoinNonEmpty(parts);
        }
      }
    } else {
      assert parts + [] == parts;
    }
  }

  lemma {:induction false} JoinNonEmpty(parts: seq<string>)
    requires parts != [] && parts[0] != ""
    ensures Join(parts) != ""
  {
    if |parts| > 1 {
      assert |Join(parts)| >= |parts[0]|;
    }
  }

  /** A message reached by the walk, with the folder name it is recorded under. */
  datatype Visit = Visit(message: ArchiveMessage, folder: string)

  /** The messages of one folder, in index order; falsy ones are passed over. */
  function MessageVisits(ms: seq<Option<ArchiveMessage>>, path: string): (vs: seq<Visit>)
    ensures |vs| <= |ms|
    ensures forall j :: 0 <= j < |vs| ==> vs[j].folder == path
  {
    if ms == [] then []
    else
      var last := match ms[|ms| - 1] case Some(m) => [Visit(m, path)] case None => [];
      MessageVisits(ms[..|ms| - 1], path) + last
  }

  /** One more message of the folder is one more step, or none for a falsy one. */
  lemma RunMessagesPrefix(s: ExtractorState, ms: seq<Option<ArchiveMessage>>, i: nat, path: string, now: string)
    requires i < |ms|
    ensures ms[i].Some? ==>
      RunVisits(s, MessageVisits(ms[..i + 1], path), now)
        == Step(RunVisits(s, MessageVisits(ms[..i], path), now), Visit(ms[i].value, path), now)
    ensures ms[i].None? ==>
      RunVisits(s, MessageVisits(ms[..i + 1], path), now) == RunVisits(s, MessageVisits(ms[..i], path), now)
  {
    MessageVisitsPrefix(ms, i, path);
    if ms[i].Some? {
      RunVisitsSnoc(s, MessageVisits(ms[..i], path), Visit(ms[i].value, path), now);
    }
  }

  /** One more message of the folder adds its visit, or none for a falsy one. */
  lemma MessageVisitsPrefix(ms: seq<Option<ArchiveMessage>>, i: nat, path: string)
    requires i < |ms|
    ensures ms[i].Some? ==> MessageVisits(ms[..i + 1], path) == MessageVisits(ms[..i], path) + [Visit(ms[i].value, path)]
    ensures ms[i].None? ==> MessageVisits(ms[..i + 1], path) == MessageVisits(ms[..i], path)
  {
    assert ms[..i + 1][..i] == ms[..i];
    assert ms[..i + 1][i] == ms[i];
  }

  /** process_folder's order: a folder's own messages, then each subfolder's walk in index order. */
  function Visits(f: Folder, parent: string): seq<Visit>
    decreases f, 1
  {
    var path := ChildPath(parent, f.name);
    MessageVisits(f.messages, path) + SubVisits(f, path, |f.subfolders|)
  }

  /** The walk of the subfolder at index j (nothing for a falsy one). */
  function SubVisit(f: Folder, path: string, j: nat): seq<Visit>
    requires j < |f.subfolders|
    decreases f, 0, 0
  {
    match f.subfolders[j]
    case Some(c) => (assert f.subfolders[j] in f.subfolders; Visits(c, path))
    case None => []
  }

  /** The walks of the first n subfolders of f, one after the other. */
  function SubVisits(f: Folder, path: string, n: nat): seq<Visit>
    requires n <= |f.subfolders|
    decreases f, 0, 1, n
  {
    if n == 0 then [] else SubVisits(f, path, n - 1) + SubVisit(f, path, n - 1)
  }

  /** Pre-order: a folder's own messages come first, before anything in its subfolders. */
  lemma PreOrder(f: Folder, parent: string)
    ensures var own := MessageVisits(f.messages, ChildPath(parent, f.name));
      Visits(f, parent)[..|own|] == own
  {
  }

  // --------------------------------------------------------------- progress

  /** The progress data: processed ids, the count last saved, and two timestamps. */
  datatype Progress = Progress(
    processed: seq<string>,
    totalProcessed: nat,
    startTime: Option<string>,
    lastUpdate: Option<string>)

  /** The progress file on disk. */
  datatype ProgressFile = NoFile | Unparseable | Written(data: Progress)

  const EmptyProgress: Progress := Progress([], 0, None, None)

  /** load_progress: the saved data, or the empty default when the file is missing or unreadable. */
  function LoadProgress(file: ProgressFile): (p: Progress)
    ensures file.Written? ==> p == file.data
    ensures !file.Written? ==> p.processed == [] && p.totalProcessed == 0 && p.startTime.None? && p.lastUpdate.None?
  {
    match file
    case Written(data) => data
    case _ => EmptyProgress
  }

  // ------------------------------------------------------------ the records

  /** The metadata file of one message, as far as the rest of the system reads it. */
  datatype Record = Record(
    id: string,
    folder: string,
    subject: string,
    senderName: string,
    attachmentCount: Option<nat>,
    emlFile: Option<string>,
    attachments: seq<SavedAttachment>)

  function EmlPath(id: string): string {
    "emails/" + id + ".eml"
  }

  /** The record process_message writes for a message under the given id and folder. */
  function RecordOf(v: Visit, id: string): (r: Record)
    ensures r.id == id && r.folder == v.folder
    ensures r.emlFile.Some? <==> !v.message.emlWriteFails
    ensures r.attachments == AttachmentsOf(v.message, id)
  {
    var m := v.message;
    Record(
      id, v.folder, m.subject, m.senderName,
      if m.countMethod.Available? then Some(m.countMethod.value) else None,
      if m.emlWriteFails then None else Some(EmlPath(id)),
      AttachmentsOf(m, id))
  }

  // ------------------------------------------------------- the state machine

  /** Everything the extractor changes: its counter, its progress data, the metadata directory and the progress file. */
  datatype ExtractorState = ExtractorState(
    count: nat,
    progress: Progress,
    store: map<string, Record>,
    file: ProgressFile)

  const CheckpointEvery: nat := 10

  /** save_progress: record the counter and the time, and rewrite the progress file. */
  function Saved(s: ExtractorState, now: string): (r: ExtractorState)
    ensures r.count == s.count && r.store == s.store
    ensures r.progress.processed == s.progress.processed && r.progress.startTime == s.progress.startTime
    ensures r.progress.totalProcessed == s.count && r.progress.lastUpdate == Some(now)
    ensures r.file == Written(r.progress)
  {
    var p := s.progress.(totalProcessed := s.count, lastUpdate := Some(now));
    s.(progress := p, file := Written(p))
  }

  /** The id the next message will get. */
  function NextId(s: ExtractorState): string {
    FormatId(s.count + 1)
  }

  /** Whether process_message stores the message and lists its id. */
  predicate Stores(s: ExtractorState, v: Visit) {
    NextId(s) !in s.progress.processed && !v.message.metadataWriteFails
  }

  /** process_message on one visited message. */
  function Step(s: ExtractorState, v: Visit, now: string): ExtractorState {
    var n := s.count + 1;
    if !Stores(s, v) then s.(count := n)
    else if n % CheckpointEvery == 0 then Saved(Stored(s, v), now)
    else Stored(s, v)
  }

  /** The state after a message is stored: counter advanced, record kept, id listed. */
  function Stored(s: ExtractorState, v: Visit): ExtractorState {
    var id := NextId(s);
    s.(count := s.count + 1,
       store := s.store[id := RecordOf(v, id)],
       progress := s.progress.(processed := s.progress.processed + [id]))
  }

  /** The messages of a walk, processed one after the other. */
  function RunVisits(s: ExtractorState, vs: seq<Visit>, now: string): ExtractorState {
    if vs == [] then s else Step(RunVisits(s, vs[..|vs| - 1], now), vs[|vs| - 1], now)
  }

  /** The start time is set only when it is unset. */
  function Started(s: ExtractorState, now: string): (r: ExtractorState)
    ensures r.count == s.count && r.store == s.store && r.file == s.file
    ensures r.progress.processed == s.progress.processed
    ensures s.progress.startTime.Some? ==> r.progress.startTime == s.progress.startTime
    ensures s.progress.startTime.None? ==> r.progress.startTime == Some(now)
  {
    if s.progress.startTime.None? then s.(progress := s.progress.(startTime := Some(now))) else s
  }

  /**
   * extract: when the archive opens, set the start time; when its root can
   * be read, walk from the root with an empty path; in every case save.
   */
  function Extraction(s: ExtractorState, archive: Archive, now: string): ExtractorState {
    match archive
    case Unopenable => Saved(s, now)
    case RootUnreadable => Saved(Started(s, now), now)
    case Opened(root) => Saved(RunVisits(Started(s, now), Visits(root, ""), now), now)
  }

  // -------------------------------------------------- properties of a step

  /** A message whose id is already listed changes nothing but the counter. */
  lemma StepSkipsProcessed(s: ExtractorState, v: Visit, now: string)
    requires NextId(s) in s.progress.processed
    ensures Step(s, v, now) == s.(count := s.count + 1)
  {
  }

  /**
   * Every visited message advances the counter; the id is listed, after its
   * record is stored, exactly when it was not listed and the metadata write
   * succeeded; otherwise the list and the store are unchanged.
   */
  lemma StepEffect(s: ExtractorState, v: Visit, now: string)
    ensures Step(s, v, now).count == s.count + 1
    ensures Stores(s, v) ==>
      && Step(s, v, now).progress.processed == s.progress.processed + [NextId(s)]
      && Step(s, v, now).store == s.store[NextId(s) := RecordOf(v, NextId(s))]
    ensures !Stores(s, v) ==>
      && Step(s, v, now).progress.processed == s.progress.processed
      && Step(s, v, now).store == s.store
  {
  }

  /** The progress file is rewritten by a step exactly when it stores the tenth, twentieth, ... message. */
  lemma StepCheckpoint(s: ExtractorState, v: Visit, now: string)
    ensures Stores(s, v) && (s.count + 1) % CheckpointEvery == 0 ==>
      && Step(s, v, now).file == Written(Step(s, v, now).progress)
      && Step(s, v, now).progress.totalProcessed == s.count + 1
    ensures !(Stores(s, v) && (s.count + 1) % CheckpointEvery == 0) ==>
      Step(s, v, now).file == s.file && Step(s, v, now).progress.totalProcessed == s.progress.totalProcessed
  {
  }

  // --------------------------------------------------- properties of a walk

  lemma {:induction false} RunVisitsAppend(s: ExtractorState, a: seq<Visit>, b: seq<Visit>, now: string)
    ensures RunVisits(s, a + b, now) == RunVisits(RunVisits(s, a, now), b, now)
    decreases |b|
  {
    if b == [] {
      assert a + b == a;
    } else {
      assert (a + b)[..|a + b| - 1] == a + b[..|b| - 1];
      RunVisitsAppend(s, a, b[..|b| - 1], now);
    }
  }

  lemma RunVisitsSnoc(s: ExtractorState, vs: seq<Visit>, v: Visit, now: string)
    ensures RunVisits(s, vs + [v], now) == Step(RunVisits(s, vs, now), v, now)
  {
    assert (vs + [v])[..|vs|] == vs;
  }

  /** Every visited message consumes one value of the counter, skipped or failing ones included. */
  lemma {:induction false} RunCount(s: ExtractorState, vs: seq<Visit>, now: string)
    ensures RunVisits(s, vs, now).count == s.count + |vs|
  {
    if vs != [] {
      RunCount(s, vs[..|vs| - 1], now);
    }
  }

  /**
   * A walk only appends to the processed list, and every id it appends is
   * the id of one of this walk's counter values, with its record stored.
   */
  lemma {:induction false} RunAppendsOwnIds(s: ExtractorState, vs: seq<Visit>, now: string)
    ensures var r := RunVisits(s, vs, now);
      var prior := s.progress.processed;
      var after := r.progress.processed;
      && |prior| <= |after| && after[..|prior|] == prior
      && forall j :: |prior| <= j < |after| ==>
           && ParseId(after[j]).Some? && s.count < ParseId(after[j]).value <= r.count
           && after[j] in r.store
  {
    RunCount(s, vs, now);
    if vs != [] {
      var init := vs[..|vs| - 1];
      var v := vs[|vs| - 1];
      RunAppendsOwnIds(s, init, now);
      var m := RunVisits(s, init, now);
      RunCount(s, init, now);
      FormatIdRoundTrip(m.count + 1);
      StepEffect(m, v, now);
    }
  }

  /** Ids appended by a walk come in increasing counter order. */
  lemma {:induction false} RunIdsIncrease(s: ExtractorState, vs: seq<Visit>, now: string)
    ensures var prior := s.progress.processed;
      var after := RunVisits(s, vs, now).progress.processed;
      && |prior| <= |after|
      && forall i, j :: |prior| <= i < j < |after| ==>
           ParseId(after[i]).Some? && ParseId(after[j]).Some? && ParseId(after[i]).value < ParseId(after[j]).value
  {
    RunAppendsOwnIds(s, vs, now);
    if vs != [] {
      var init := vs[..|vs| - 1];
      var v := vs[|vs| - 1];
      RunIdsIncrease(s, init, now);
      var m := RunVisits(s, init, now);
      RunAppendsOwnIds(s, init, now);
      RunCount(s, init, now);
      FormatIdRoundTrip(m.count + 1);
      StepEffect(m, v, now);
    }
  }

  /** No id is listed twice: a walk never appends an id that is already listed. */
  lemma {:induction false} RunNoDuplicates(s: ExtractorState, vs: seq<Visit>, now: string)
    requires NoDuplicates(s.progress.processed)
    ensures NoDuplicates(RunVisits(s, vs, now).progress.processed)
  {
    if vs != [] {
      var init := vs[..|vs| - 1];
      RunNoDuplicates(s, init, now);
      StepEffect(RunVisits(s, init, now), vs[|vs| - 1], now);
    }
  }

  /**
   * Once the archive opens, the start time afterwards is the earlier one
   * when there was one, else this run's; an archive that does not open
   * leaves it as it was.
   */
  lemma ExtractionStartTime(s: ExtractorState, archive: Archive, now: string)
    ensures var r := Extraction(s, archive, now);
      r.progress.startTime ==
        if s.progress.startTime.Some? || archive.Unopenable? then s.progress.startTime else Some(now)
  {
    if archive.Opened? {
      RunStartTime(Started(s, now), Visits(archive.root, ""), now);
    }
  }

  lemma {:induction false} RunStartTime(s: ExtractorState, vs: seq<Visit>, now: string)
    ensures RunVisits(s, vs, now).progress.startTime == s.progress.startTime
  {
    if vs != [] {
      RunStartTime(s, vs[..|vs| - 1], now);
    }
  }

  /** A finished extraction, successful or not, leaves the progress file holding the final counter. */
  lemma ExtractionSaves(s: ExtractorState, archive: Archive, now: string)
    ensures var r := Extraction(s, archive, now);
      r.file == Written(r.progress) && r.progress.totalProcessed == r.count
      && r.progress.lastUpdate == Some(now)
  {
  }

  // -------------------------------------------------------------- the class

  /** PSTExtractor, with the fields the walk updates. */
  class Extractor {
    var processedCount: nat
    var progress: Progress
    var store: map<string, Record>
    var progressFile: ProgressFile

    function State(): ExtractorState
      reads this
    {
      ExtractorState(processedCount, progress, store, progressFile)
    }

    /** A new extractor: counter at 0, progress loaded from the file, the metadata directory as found. */
    constructor(file: ProgressFile, existing: map<string, Record>)
      ensures State() == ExtractorState(0, LoadProgress(file), existing, file)
    {
      processedCount := 0;
      progress := LoadProgress(file);
      store := existing;
      progressFile := file;
    }

    method SaveProgress(now: string)
      modifies this
      ensures State() == Saved(old(State()), now)
    {
      progress := progress.(totalProcessed := processedCount, lastUpdate := Some(now));
      progressFile := Written(progress);
    }

    /** extract_attachments for the message that gets the given id. */
    method ExtractAttachments(m: ArchiveMessage, id: string) returns (saved: seq<SavedAttachment>)
      ensures saved == AttachmentsOf(m, id)
    {
      var count := AttachmentCount(m);
      if count.None? {
        return [];
      }
      saved := [];
      var i := 0;
      while i < count.value
        invariant i <= count.value && i <= |m.attachments|
        invariant saved == SavedUpTo(m.attachments, id, i)
      {
        if i >= |m.attachments| {
          break;
        }
        assert SavedUpTo(m.attachments, id, i + 1) == saved + Contribution(m.attachments, id, i);
        match m.attachments[i] {
          case Some(a) =>
            if !a.readFails {
              saved := saved + [EntryOf(id, a, i)];
            }
          case None =>
        }
        i := i + 1;
      }
    }

    method ProcessMessage(v: Visit, now: string)
      modifies this
      ensures State() == Step(old(State()), v, now)
    {
      ghost var before := State();
      processedCount := processedCount + 1;
      var id := FormatId(processedCount);
      if id in progress.processed {
        return;
      }
      var attachments := ExtractAttachments(v.message, id);
      if v.message.metadataWriteFails {
        return;
      }
      var m := v.message;
      var record := Record(
        id, v.folder, m.subject, m.senderName,
        if m.countMethod.Available? then Some(m.countMethod.value) else None,
        if m.emlWriteFails then None else Some(EmlPath(id)),
        attachments);
      assert record == RecordOf(v, id);
      store := store[id := record];
      progress := progress.(processed := progress.processed + [id]);
      assert State() == Stored(before, v);
      if processedCount % CheckpointEvery == 0 {
        SaveProgress(now);
      }
    }

    /** The message loop of process_folder: the folder's messages in index order. */
    method ProcessMessages(ms: seq<Option<ArchiveMessage>>, path: string, now: string)
      modifies this
      ensures State() == RunVisits(old(State()), MessageVisits(ms, path), now)
    {
      var i := 0;
      while i < |ms|
        invariant i <= |ms|
        invariant State() == RunVisits(old(State()), MessageVisits(ms[..i], path), now)
      {
        RunMessagesPrefix(old(State()), ms, i, path, now);
        if ms[i].Some? {
          ProcessMessage(Visit(ms[i].value, path), now);
        }
        i := i + 1;
      }
      assert ms[..|ms|] == ms;
    }

    /** process_folder: the folder's messages, then its subfolders in index order. */
    method ProcessFolder(f: Folder, parent: string, now: string)
      modifies this
      ensures State() == RunVisits(old(State()), Visits(f, parent), now)
      decreases f, 1
    {
      var path := ChildPath(parent, f.name);
      ProcessMessages(f.messages, path, now);
      ProcessSubfolders(f, path, now);
      RunVisitsAppend(old(State()), MessageVisits(f.messages, path), SubVisits(f, path, |f.subfolders|), now);
    }

    /** One iteration of the subfolder loop of process_folder. */
    method ProcessSubfolder(f: Folder, path: string, j: nat, now: string)
      requires j < |f.subfolders|
      modifies this
      ensures State() == RunVisits(old(State()), SubVisit(f, path, j), now)
      decreases f, 0, 0
    {
      match f.subfolders[j] {
        case Some(c) =>
          assert f.subfolders[j] in f.subfolders;
          ProcessFolder(c, path, now);
        case None =>
      }
    }

    /** The subfolder loop of process_folder. */
    method ProcessSubfolders(f: Folder, path: string, now: string)
      modifies this
      ensures State() == RunVisits(old(State()), SubVisits(f, path, |f.subfolders|), now)
      decreases f, 0, 1
    {
      var j := 0;
      while j < |f.subfolders|
        invariant j <= |f.subfolders|
        invariant State() == RunVisits(old(State()), SubVisits(f, path, j), now)
      {
        ProcessSubfolder(f, path, j, now);
        RunVisitsAppend(old(State()), SubVisits(f, path, j), SubVisit(f, path, j), now);
        j := j + 1;
      }
    }

    /**
     * extract: succeeds iff the archive opens and its root can be read;
     * otherwise the progress is saved and the error raised again.
     */
    method Extract(archive: Archive, now: string) returns (ok: bool)
      modifies this
      ensures ok <==> archive.Opened?
      ensures State() == Extraction(old(State()), archive, now)
    {
      if archive.Unopenable? {
        SaveProgress(now);
        return false;
      }
      if progress.startTime.None? {
        progress := progress.(startTime := Some(now));
      }
      if archive.RootUnreadable? {
        SaveProgress(now);
        return false;
      }
      ProcessFolder(archive.root, "", now);
      SaveProgress(now);
      return true;
    }
  }
}
