/**
 * The transcript job: generation options applied to a basic transcript,
 * the CSV rendering and HTML escaping of a batch export, the in-memory
 * table of batch exports with its status updates and daily cleanup, and the
 * hourly run that saves a transcript for every recently closed conversation.
 */
module Transcripts {
  import opened Base
  import opened Records
  import opened Messages
  import opened Csv

  // ---------------------------------------------------------------------
  // Generation options.
  // ---------------------------------------------------------------------

  datatype DateRange = DateRange(start: Time, end: Time)

  /** Every flag may be absent; an absent flag counts as false. */
  datatype GenerationOptions = GenerationOptions(
    includeSystemMessages: Option<bool>,
    includeDeletedMessages: Option<bool>,
    includeAttachments: Option<bool>,
    includeMetrics: Option<bool>,
    format: Option<string>,
    dateRange: Option<DateRange>)

  /** JavaScript truthiness of an optional flag. */
  predicate On(flag: Option<bool>) {
    flag == Some(true)
  }

  predicate FromSystem(m: TranscriptMessage) {
    m.sender.senderType == "system"
  }

  function NotSystem(m: TranscriptMessage): bool {
    !FromSystem(m)
  }

  /** The deletion test the job applies: a `deleted` entry inside the document's metadata. */
  predicate DeletedInMetadata(m: TranscriptMessage) {
    m.metadata.Some? && m.metadata.value.deleted
  }

  /** Deleted by either mark: the metadata entry, or the flag soft deletion sets on the document. */
  predicate MarkedDeleted(m: TranscriptMessage) {
    DeletedInMetadata(m) || m.deleted
  }

  function Visible(hidden: TranscriptMessage -> bool): TranscriptMessage -> bool {
    (m: TranscriptMessage) => !hidden(m)
  }

  /** Inside the options' date range, both ends included; true when there is no range. */
  function InDateRange(o: GenerationOptions): TranscriptMessage -> bool {
    (m: TranscriptMessage) => o.dateRange.Some? ==> o.dateRange.value.start <= m.timestamp <= o.dateRange.value.end
  }

  function WithoutAttachments(m: TranscriptMessage): (r: TranscriptMessage)
    ensures r.attachments.None? && r.(attachments := m.attachments) == m
  {
    m.(attachments := None)
  }

  /** The attachment step: drop every line's attachments unless they are asked for. */
  function AttachmentStep(o: GenerationOptions, ms: seq<TranscriptMessage>): seq<TranscriptMessage> {
    if On(o.includeAttachments) then ms else Map(WithoutAttachments, ms)
  }

  /** Reference definition: whether one line survives the options, `hidden` being the deletion test. */
  predicate Kept(o: GenerationOptions, hidden: TranscriptMessage -> bool, m: TranscriptMessage) {
    && (On(o.includeSystemMessages) || !FromSystem(m))
    && (On(o.includeDeletedMessages) || !hidden(m))
    && (o.dateRange.Some? ==> o.dateRange.value.start <= m.timestamp <= o.dateRange.value.end)
  }

  function KeptBy(o: GenerationOptions, hidden: TranscriptMessage -> bool): TranscriptMessage -> bool {
    (m: TranscriptMessage) => Kept(o, hidden, m)
  }

  /** Reference definition: how a surviving line is shown. */
  function Shaped(o: GenerationOptions): TranscriptMessage -> TranscriptMessage {
    (m: TranscriptMessage) => if On(o.includeAttachments) then m else WithoutAttachments(m)
  }

  /** Shaping a line changes only its attachments, so no filter tells a shaped line from the original. */
  lemma ShapedKeepsTimestamp(o: GenerationOptions, b: seq<TranscriptMessage>)
    ensures forall i :: 0 <= i < |b| ==>
      Guarded(o.dateRange.Some?, InDateRange(o))(b[i]) == Guarded(o.dateRange.Some?, InDateRange(o))(Shaped(o)(b[i]))
  {
  }

  lemma AttachmentStepIsShaping(o: GenerationOptions, b: seq<TranscriptMessage>)
    ensures AttachmentStep(o, b) == Map(Shaped(o), b)
  {
  }

  lemma GuardsMeanKept(o: GenerationOptions, hidden: TranscriptMessage -> bool, s: seq<TranscriptMessage>)
    ensures var g1 := Guarded(!On(o.includeSystemMessages), NotSystem);
      var g2 := Guarded(!On(o.includeDeletedMessages), Visible(hidden));
      var g3 := Guarded(o.dateRange.Some?, InDateRange(o));
      forall i :: 0 <= i < |s| ==> Both(Both(g1, g2), g3)(s[i]) == KeptBy(o, hidden)(s[i])
  {
    var g1 := Guarded(!On(o.includeSystemMessages), NotSystem);
    var g2 := Guarded(!On(o.includeDeletedMessages), Visible(hidden));
    var g3 := Guarded(o.dateRange.Some?, InDateRange(o));
    forall i | 0 <= i < |s|
      ensures Both(Both(g1, g2), g3)(s[i]) == KeptBy(o, hidden)(s[i])
    {
      var x := s[i];
      assert g1(x) == (On(o.includeSystemMessages) || NotSystem(x));
      assert g2(x) == (On(o.includeDeletedMessages) || Visible(hidden)(x));
      assert Both(Both(g1, g2), g3)(x) == (g1(x) && g2(x) && g3(x));
    }
  }

  /** The four message steps, in the job's order, select the kept lines and shape them. */
  lemma ApplyStepsMeansKept(o: GenerationOptions, hidden: TranscriptMessage -> bool, s: seq<TranscriptMessage>)
    ensures FilterIf(o.dateRange.Some?, InDateRange(o),
              AttachmentStep(o,
                FilterIf(!On(o.includeDeletedMessages), Visible(hidden),
                  FilterIf(!On(o.includeSystemMessages), NotSystem, s))))
            == Map(Shaped(o), Filter(KeptBy(o, hidden), s))
  {
    var g1 := Guarded(!On(o.includeSystemMessages), NotSystem);
    var g2 := Guarded(!On(o.includeDeletedMessages), Visible(hidden));
    var g3 := Guarded(o.dateRange.Some?, InDateRange(o));
    var a := FilterIf(!On(o.includeSystemMessages), NotSystem, s);
    var b := FilterIf(!On(o.includeDeletedMessages), Visible(hidden), a);
    assert a == Filter(g1, s);
    assert b == Filter(g2, Filter(g1, s));
    FilterFilter(g1, g2, s);
    var ab := Filter(Both(g1, g2), s);
    assert b == ab;
    AttachmentStepIsShaping(o, ab);
    ShapedKeepsTimestamp(o, ab);
    FilterMap(g3, g3, Shaped(o), ab);
    FilterFilter(Both(g1, g2), g3, s);
    GuardsMeanKept(o, hidden, s);
    FilterAgree(Both(Both(g1, g2), g3), KeptBy(o, hidden), s);
  }

  /** Every line of the result is a kept line of the input, shaped. */
  lemma ResultLine(o: GenerationOptions, hidden: TranscriptMessage -> bool, s: seq<TranscriptMessage>, m: TranscriptMessage)
    requires m in Map(Shaped(o), Filter(KeptBy(o, hidden), s))
    ensures exists x :: x in s && Kept(o, hidden, x) && m == Shaped(o)(x)
  {
    var kept := Filter(KeptBy(o, hidden), s);
    var j :| 0 <= j < |kept| && Map(Shaped(o), kept)[j] == m;
    assert KeptBy(o, hidden)(kept[j]);
  }

  /**
   * `applyTranscriptOptions` with the deletion test as a parameter: no
   * options leave the transcript as it is; otherwise the system, deleted
   * and date filters and the attachment step run in that order and the
   * metrics go unless asked for.
   */
  function ApplyOptionsWith(t: Transcript, options: Option<GenerationOptions>, hidden: TranscriptMessage -> bool)
    : (r: Transcript)
    ensures options.None? ==> r == t
    ensures options.Some? ==>
      var o := options.value;
      && r.messages == Map(Shaped(o), Filter(KeptBy(o, hidden), t.messages))
      && r.metrics == (if On(o.includeMetrics) then t.metrics else None)
      && r == t.(messages := r.messages, metrics := r.metrics)
  {
    if options.None? then t
    else
      var o := options.value;
      var ms1 := FilterIf(!On(o.includeSystemMessages), NotSystem, t.messages);
      var ms2 := FilterIf(!On(o.includeDeletedMessages), Visible(hidden), ms1);
      var ms3 := AttachmentStep(o, ms2);
      var ms4 := FilterIf(o.dateRange.Some?, InDateRange(o), ms3);
      ApplyStepsMeansKept(o, hidden, t.messages);
      t.(messages := ms4, metrics := if On(o.includeMetrics) then t.metrics else None)
  }

  /** The options as the job applies them: a deleted message is one whose metadata says so. */
  function ApplyTranscriptOptionsAsWritten(t: Transcript, options: Option<GenerationOptions>): (r: Transcript)
    ensures options.Some? && !On(options.value.includeDeletedMessages) ==>
      forall m :: m in r.messages ==> !DeletedInMetadata(m)
  {
    var r := ApplyOptionsWith(t, options, DeletedInMetadata);
    if options.Some? then
      forall m | m in r.messages ensures exists x :: x in t.messages && Kept(options.value, DeletedInMetadata, x) && m == Shaped(options.value)(x) {
        ResultLine(options.value, DeletedInMetadata, t.messages, m);
      }
      r
    else r
  }

  /** A transcript whose one line is an attachment that soft deletion removed. */
  function SoftDeletedTranscript(): Transcript {
    var line := TranscriptMessage("m1", 0, SenderRef("u1", "Ana", "client"), "[Attachment deleted]", "file",
                                  None, None, true);
    Transcript("c1", "co1", 0, 0, Closed, [], [line], None, 0, None, None)
  }

  const ExcludeEverything := GenerationOptions(Some(false), Some(false), Some(false), Some(false), None, None)

  /** As written, asking to leave deleted messages out still exports a soft-deleted attachment. */
  lemma AsWrittenKeepsSoftDeleted()
    ensures var r := ApplyTranscriptOptionsAsWritten(SoftDeletedTranscript(), Some(ExcludeEverything));
      |r.messages| == 1 && r.messages[0].deleted
  {
    var t := SoftDeletedTranscript();
    assert Filter(KeptBy(ExcludeEverything, DeletedInMetadata), t.messages) == t.messages;
  }

  /** The options with the deleted filter honouring both deletion marks; the rest of the model uses this. */
  function ApplyTranscriptOptions(t: Transcript, options: Option<GenerationOptions>): (r: Transcript)
    ensures options.None? ==> r == t
    ensures options.Some? ==> |r.messages| <= |t.messages|
    ensures options.Some? && !On(options.value.includeDeletedMessages) ==>
      forall m :: m in r.messages ==> !MarkedDeleted(m)
    ensures options.Some? && !On(options.value.includeSystemMessages) ==>
      forall m :: m in r.messages ==> !FromSystem(m)
    ensures options.Some? && !On(options.value.includeAttachments) ==>
      forall m :: m in r.messages ==> m.attachments.None?
    ensures options.Some? && options.value.dateRange.Some? ==>
      var range := options.value.dateRange.value;
      forall m :: m in r.messages ==> range.start <= m.timestamp <= range.end
    ensures options.Some? ==> (r.metrics.Some? <==> On(options.value.includeMetrics) && t.metrics.Some?)
  {
    var r := ApplyOptionsWith(t, options, MarkedDeleted);
    if options.Some? then
      forall m | m in r.messages ensures exists x :: x in t.messages && Kept(options.value, MarkedDeleted, x) && m == Shaped(options.value)(x) {
        ResultLine(options.value, MarkedDeleted, t.messages, m);
      }
      r
    else r
  }

  /**
   * Filters only remove lines: what is left is an order-preserving
   * subsequence of the input, equal to it line for line when attachments
   * are kept, and a line of the input is left out only if some option
   * excludes it.
   */
  lemma ApplyOptionsSubsequence(t: Transcript, o: GenerationOptions)
    ensures IsSubsequence(Filter(KeptBy(o, MarkedDeleted), t.messages), t.messages)
    ensures On(o.includeAttachments) ==>
      IsSubsequence(ApplyTranscriptOptions(t, Some(o)).messages, t.messages)
    ensures forall i :: 0 <= i < |t.messages| && Kept(o, MarkedDeleted, t.messages[i]) ==>
      Shaped(o)(t.messages[i]) in ApplyTranscriptOptions(t, Some(o)).messages
  {
    var kept := Filter(KeptBy(o, MarkedDeleted), t.messages);
    FilterIsSubsequence(KeptBy(o, MarkedDeleted), t.messages);
    if On(o.includeAttachments) {
      assert Map(Shaped(o), kept) == kept;
    }
    forall i | 0 <= i < |t.messages| && Kept(o, MarkedDeleted, t.messages[i])
      ensures Shaped(o)(t.messages[i]) in ApplyTranscriptOptions(t, Some(o)).messages
    {
      var j :| 0 <= j < |kept| && kept[j] == t.messages[i];
      assert Map(Shaped(o), kept)[j] == Shaped(o)(t.messages[i]);
    }
  }

  /** A date range keeps exactly the lines whose time lies within it, both ends included. */
  lemma DateRangeInclusive(t: Transcript, start: Time, end: Time, m: TranscriptMessage)
    requires m in t.messages
    ensures var o := GenerationOptions(Some(true), Some(true), Some(true), Some(true), None, Some(DateRange(start, end)));
      m in ApplyTranscriptOptions(t, Some(o)).messages <==> start <= m.timestamp <= end
  {
    var o := GenerationOptions(Some(true), Some(true), Some(true), Some(true), None, Some(DateRange(start, end)));
    var kept := Filter(KeptBy(o, MarkedDeleted), t.messages);
    assert Map(Shaped(o), kept) == kept;
  }

  // ---------------------------------------------------------------------
  // CSV export.
  // ---------------------------------------------------------------------

  const CsvHeaders: seq<string> := ["Conversation ID", "Timestamp", "Sender", "Type", "Content"]

  /**
   * How the sender-name column is written: `NameBare`, as the export job
   * writes it, or `NameQuoted`, like the content, as it evidently means to.
   */
  datatype NameColumn = NameBare | NameQuoted

  /** A row that starts with the conversation id and ends with the message's quoted content. */
  predicate RowFor(row: string, conversationId: string, m: TranscriptMessage) {
    var q := QuoteField(m.content);
    IsPrefix(conversationId, row) && |q| <= |row| && UnquoteField(row[|row| - |q|..]) == Some(m.content)
  }

  /** A row's five cells: the content always quoted, the sender name as `name` says. */
  function CsvCells(name: NameColumn, conversationId: string, m: TranscriptMessage, iso: Time -> string): seq<Cell> {
    [Bare(conversationId), Bare(iso(m.timestamp)),
     if name == NameQuoted then Quoted(m.sender.name) else Bare(m.sender.name),
     Bare(m.kind), Quoted(m.content)]
  }

  /** The fields a row holds: conversation, time, sender name, type and content. */
  function CsvFields(conversationId: string, m: TranscriptMessage, iso: Time -> string): seq<string> {
    [conversationId, iso(m.timestamp), m.sender.name, m.kind, m.content]
  }

  /** The columns written bare hold no separator and open with no quote. */
  predicate BareColumnsPlain(name: NameColumn, conversationId: string, m: TranscriptMessage, iso: Time -> string) {
    && Plain(conversationId) && Plain(iso(m.timestamp)) && Plain(m.kind)
    && (name == NameBare ==> Plain(m.sender.name))
  }

  /**
   * One row: conversation, time, sender name, type and content. It reads
   * back as exactly those five fields whenever the bare columns are plain:
   * with the name quoted, whatever the name and content hold; with the name
   * bare, only when the name is plain too.
   */
  function CsvRow(name: NameColumn, conversationId: string, m: TranscriptMessage, iso: Time -> string): (row: string)
    ensures RowFor(row, conversationId, m)
    ensures BareColumnsPlain(name, conversationId, m, iso) ==> Parse(row) == Some([CsvFields(conversationId, m, iso)])
  {
    var cells := CsvCells(name, conversationId, m, iso);
    var fields := Map(Encode, cells);
    assert fields[0] == conversationId;
    JoinStartsWithFirst(fields, ",");
    JoinEndsWithLast(fields, ",");
    QuoteFieldRoundTrip(m.content);
    CsvCellsReadBack(name, conversationId, m, iso);
    WriteRecord(cells)
  }

  lemma CsvCellsReadBack(name: NameColumn, conversationId: string, m: TranscriptMessage, iso: Time -> string)
    ensures BareColumnsPlain(name, conversationId, m, iso) ==>
      Parse(WriteRecord(CsvCells(name, conversationId, m, iso))) == Some([CsvFields(conversationId, m, iso)])
  {
    var cells := CsvCells(name, conversationId, m, iso);
    if BareColumnsPlain(name, conversationId, m, iso) {
      CsvCellsWritable(name, conversationId, m, iso);
      ParseOf([cells]);
      assert Write([cells]) == WriteRecord(cells);
      CsvCellsTexts(name, conversationId, m, iso);
      assert Map(TextsOf, [cells]) == [CsvFields(conversationId, m, iso)];
    }
  }

  /** The cells of a row whose sender name is written as two bare fields. */
  function SplitNameCells(conversationId: string, m: TranscriptMessage, iso: Time -> string, first: string, last: string): seq<Cell> {
    [Bare(conversationId), Bare(iso(m.timestamp)), Bare(first), Bare(last), Bare(m.kind), Quoted(m.content)]
  }

  /** A bare name `first,last` is written exactly as the two bare fields `first` and `last`. */
  lemma CommaNameWritesTwoFields(conversationId: string, m: TranscriptMessage, iso: Time -> string, first: string, last: string)
    requires m.sender.name == first + "," + last
    ensures CsvRow(NameBare, conversationId, m, iso) == WriteRecord(SplitNameCells(conversationId, m, iso, first, last))
  {
    var six := SplitNameCells(conversationId, m, iso, first, last);
    var five := CsvCells(NameBare, conversationId, m, iso);
    var e6 := Map(Encode, six);
    var e5 := Map(Encode, five);
    assert e6 == [conversationId, iso(m.timestamp), first, last, m.kind, QuoteField(m.content)];
    assert e5 == [conversationId, iso(m.timestamp), first + "," + last, m.kind, QuoteField(m.content)];
    assert Join(e6[4..], ",") == Join(e5[3..], ",");
    assert Join(e6[2..], ",") == first + "," + (last + "," + Join(e6[4..], ","));
    assert Join(e5[2..], ",") == (first + "," + last) + "," + Join(e5[3..], ",");
    assert Join(e6, ",") == Join(e5, ",");
  }

  /**
   * As written, a sender name holding a comma splits into two fields, so
   * the row reads back with six fields and every later column shifted; the
   * corrected row reads back as its five fields.
   */
  lemma AsWrittenCommaInNameSplitsRow(conversationId: string, m: TranscriptMessage, iso: Time -> string, first: string, last: string)
    requires BareColumnsPlain(NameQuoted, conversationId, m, iso) && Plain(first) && Plain(last)
    requires m.sender.name == first + "," + last
    ensures Parse(CsvRow(NameBare, conversationId, m, iso))
         == Some([[conversationId, iso(m.timestamp), first, last, m.kind, m.content]])
    ensures Parse(CsvRow(NameQuoted, conversationId, m, iso)) == Some([CsvFields(conversationId, m, iso)])
  {
    var six := SplitNameCells(conversationId, m, iso, first, last);
    CommaNameWritesTwoFields(conversationId, m, iso, first, last);
    assert forall i :: 0 <= i < |six| ==> Writable(six[i]);
    ParseOf([six]);
    assert Write([six]) == WriteRecord(six);
    assert TextsOf(six) == [conversationId, iso(m.timestamp), first, last, m.kind, m.content];
    assert Map(TextsOf, [six]) == [[conversationId, iso(m.timestamp), first, last, m.kind, m.content]];
  }

  function MessageCount(ts: seq<Transcript>): nat {
    if ts == [] then 0 else |ts[0].messages| + MessageCount(ts[1..])
  }

  /** Every message of every transcript paired with its conversation, transcript by transcript. */
  function Lines(ts: seq<Transcript>): (r: seq<(string, TranscriptMessage)>)
    ensures |r| == MessageCount(ts)
  {
    if ts == [] then []
    else Map((m: TranscriptMessage) => (ts[0].conversationId, m), ts[0].messages) + Lines(ts[1..])
  }

  /** The lines of one transcript are its messages in order. */
  lemma LinesOfOne(t: Transcript)
    ensures |Lines([t])| == |t.messages|
    ensures forall i :: 0 <= i < |t.messages| ==> Lines([t])[i] == (t.conversationId, t.messages[i])
  {
    assert [t][1..] == [];
  }

  /** The rows of earlier transcripts come before those of later ones. */
  lemma {:induction false} LinesAppend(a: seq<Transcript>, b: seq<Transcript>)
    ensures Lines(a + b) == Lines(a) + Lines(b)
  {
    if a == [] {
      assert a + b == b;
    } else {
      assert (a + b)[0] == a[0] && (a + b)[1..] == a[1..] + b;
      LinesAppend(a[1..], b);
    }
  }

  /** The header row and then one row per message, in order. */
  function CsvRows(name: NameColumn, ts: seq<Transcript>, iso: Time -> string): (rows: seq<string>)
    ensures |rows| == 1 + MessageCount(ts)
    ensures rows[0] == Join(CsvHeaders, ",")
    ensures forall k :: 0 <= k < |Lines(ts)| ==> RowFor(rows[k + 1], Lines(ts)[k].0, Lines(ts)[k].1)
  {
    var lines := Lines(ts);
    var body := Map(CsvRowWith(name, iso), lines);
    forall k | 0 <= k < |lines| ensures RowFor(body[k], lines[k].0, lines[k].1) {
      assert body[k] == CsvRow(name, lines[k].0, lines[k].1, iso);
    }
    [Join(CsvHeaders, ",")] + body
  }

  function CsvRowWith(name: NameColumn, iso: Time -> string): ((string, TranscriptMessage)) -> string {
    (line: (string, TranscriptMessage)) => CsvRow(name, line.0, line.1, iso)
  }

  /**
   * `convertTranscriptsToCSV`: the rows joined by newlines. The job writes
   * it with `NameBare`.
   */
  function TranscriptsToCsv(name: NameColumn, ts: seq<Transcript>, iso: Time -> string): (csv: string)
    ensures IsPrefix(Join(CsvHeaders, ","), csv)
  {
    var rows := CsvRows(name, ts, iso);
    JoinStartsWithFirst(rows, "\n");
    Join(rows, "\n")
  }

  /** The header row's cells, all bare. */
  function HeaderCells(): (cells: seq<Cell>)
    ensures Map(Encode, cells) == CsvHeaders && Map(TextOf, cells) == CsvHeaders
    ensures forall i :: 0 <= i < |cells| ==> Writable(cells[i])
  {
    [Bare("Conversation ID"), Bare("Timestamp"), Bare("Sender"), Bare("Type"), Bare("Content")]
  }

  function CsvCellsWith(name: NameColumn, iso: Time -> string): ((string, TranscriptMessage)) -> seq<Cell> {
    (line: (string, TranscriptMessage)) => CsvCells(name, line.0, line.1, iso)
  }

  function CsvFieldsWith(iso: Time -> string): ((string, TranscriptMessage)) -> seq<string> {
    (line: (string, TranscriptMessage)) => CsvFields(line.0, line.1, iso)
  }

  /** With the bare columns plain, every cell of a row reads back. */
  lemma CsvCellsWritable(name: NameColumn, conversationId: string, m: TranscriptMessage, iso: Time -> string)
    requires BareColumnsPlain(name, conversationId, m, iso)
    ensures forall i :: 0 <= i < 5 ==> Writable(CsvCells(name, conversationId, m, iso)[i])
  {
    var cells := CsvCells(name, conversationId, m, iso);
    assert Writable(cells[0]) && Writable(cells[1]) && Writable(cells[2]) && Writable(cells[3]);
  }

  /** A row's cells read back as its fields, however the name is written. */
  lemma CsvCellsTexts(name: NameColumn, conversationId: string, m: TranscriptMessage, iso: Time -> string)
    ensures TextsOf(CsvCells(name, conversationId, m, iso)) == CsvFields(conversationId, m, iso)
  {
  }

  /** The export's records as cells: the header, then one per message. */
  function CsvRecords(name: NameColumn, ts: seq<Transcript>, iso: Time -> string): (records: seq<seq<Cell>>)
    ensures |records| == 1 + |Lines(ts)|
    ensures records[0] == HeaderCells()
    ensures forall k :: 0 <= k < |Lines(ts)| ==> records[k + 1] == CsvCells(name, Lines(ts)[k].0, Lines(ts)[k].1, iso)
  {
    [HeaderCells()] + Map(CsvCellsWith(name, iso), Lines(ts))
  }

  /** Writing the export's records gives its rows. */
  lemma CsvRecordsWriteRows(name: NameColumn, ts: seq<Transcript>, iso: Time -> string)
    ensures Map(WriteRecord, CsvRecords(name, ts, iso)) == CsvRows(name, ts, iso)
  {
    var records := CsvRecords(name, ts, iso);
    var rows := CsvRows(name, ts, iso);
    forall k | 0 <= k < |records| ensures WriteRecord(records[k]) == rows[k] {
      if k > 0 {
        var line := Lines(ts)[k - 1];
        assert rows[k] == CsvRow(name, line.0, line.1, iso);
      }
    }
  }

  /** Every line's bare columns are plain. */
  predicate LinesPlain(name: NameColumn, ts: seq<Transcript>, iso: Time -> string) {
    forall k :: 0 <= k < |Lines(ts)| ==> BareColumnsPlain(name, Lines(ts)[k].0, Lines(ts)[k].1, iso)
  }

  /** With plain bare columns, every record of the export is non-empty and writable. */
  lemma CsvRecordsWritable(name: NameColumn, ts: seq<Transcript>, iso: Time -> string)
    requires LinesPlain(name, ts, iso)
    ensures forall k :: 0 <= k < |CsvRecords(name, ts, iso)| ==>
      CsvRecords(name, ts, iso)[k] != [] && forall i :: 0 <= i < |CsvRecords(name, ts, iso)[k]| ==> Writable(CsvRecords(name, ts, iso)[k][i])
  {
    var records := CsvRecords(name, ts, iso);
    forall k | 0 <= k < |records|
      ensures records[k] != [] && forall i :: 0 <= i < |records[k]| ==> Writable(records[k][i])
    {
      if k > 0 {
        var line := Lines(ts)[k - 1];
        assert records[k] == CsvCells(name, line.0, line.1, iso);
        CsvCellsWritable(name, line.0, line.1, iso);
      }
    }
  }

  /** The export's records carry the header and then each message's five fields. */
  lemma CsvRecordsTexts(name: NameColumn, ts: seq<Transcript>, iso: Time -> string)
    ensures Map(TextsOf, CsvRecords(name, ts, iso)) == [CsvHeaders] + Map(CsvFieldsWith(iso), Lines(ts))
  {
    var records := CsvRecords(name, ts, iso);
    var expected := [CsvHeaders] + Map(CsvFieldsWith(iso), Lines(ts));
    forall k | 0 <= k < |records| ensures TextsOf(records[k]) == expected[k] {
      if k > 0 {
        var line := Lines(ts)[k - 1];
        assert records[k] == CsvCells(name, line.0, line.1, iso);
        CsvCellsTexts(name, line.0, line.1, iso);
      }
    }
  }

  /** The export is its records written. */
  lemma TranscriptsToCsvIsWritten(name: NameColumn, ts: seq<Transcript>, iso: Time -> string)
    ensures TranscriptsToCsv(name, ts, iso) == Write(CsvRecords(name, ts, iso))
  {
    CsvRecordsWriteRows(name, ts, iso);
  }

  /**
   * The export reads back as the header and then each message's five
   * fields, transcript by transcript and in message order, whenever every
   * bare column is plain: with the name quoted that asks nothing of the
   * names, and with the name bare, as written, every name must be plain.
   */
  lemma TranscriptsToCsvRoundTrip(name: NameColumn, ts: seq<Transcript>, iso: Time -> string)
    requires LinesPlain(name, ts, iso)
    ensures Parse(TranscriptsToCsv(name, ts, iso)) == Some([CsvHeaders] + Map(CsvFieldsWith(iso), Lines(ts)))
  {
    TranscriptsToCsvIsWritten(name, ts, iso);
    CsvRecordsWritable(name, ts, iso);
    ParseOf(CsvRecords(name, ts, iso));
    CsvRecordsTexts(name, ts, iso);
  }

  /** One transcript of one message from `first,last` exports, as written, the header and the six split cells. */
  lemma OneCommaNameWrites(t: Transcript, iso: Time -> string, first: string, last: string)
    requires |t.messages| == 1
    requires t.messages[0].sender.name == first + "," + last
    ensures TranscriptsToCsv(NameBare, [t], iso)
         == Write([HeaderCells(), SplitNameCells(t.conversationId, t.messages[0], iso, first, last)])
  {
    var m := t.messages[0];
    LinesOfOne(t);
    var six := SplitNameCells(t.conversationId, m, iso, first, last);
    var rows := CsvRows(NameBare, [t], iso);
    assert rows[1] == CsvRow(NameBare, t.conversationId, m, iso);
    CommaNameWritesTwoFields(t.conversationId, m, iso, first, last);
    assert Map(WriteRecord, [HeaderCells(), six]) == rows;
  }

  /** A writable header and six plain split cells read back as the header's texts and six fields. */
  lemma SplitRecordsRead(header: seq<Cell>, conversationId: string, m: TranscriptMessage, iso: Time -> string,
                         first: string, last: string)
    requires header != [] && forall i :: 0 <= i < |header| ==> Writable(header[i])
    requires BareColumnsPlain(NameQuoted, conversationId, m, iso) && Plain(first) && Plain(last)
    ensures Parse(Write([header, SplitNameCells(conversationId, m, iso, first, last)]))
         == Some([TextsOf(header), [conversationId, iso(m.timestamp), first, last, m.kind, m.content]])
  {
    var six := SplitNameCells(conversationId, m, iso, first, last);
    var records := [header, six];
    forall k | 0 <= k < |records|
      ensures records[k] != [] && forall i :: 0 <= i < |records[k]| ==> Writable(records[k][i])
    {
      if k == 1 {
        assert records[k] == six;
        assert Writable(six[0]) && Writable(six[1]) && Writable(six[2]) && Writable(six[3]) && Writable(six[4]);
      }
    }
    ParseOf(records);
    assert TextsOf(six) == [conversationId, iso(m.timestamp), first, last, m.kind, m.content];
    assert Map(TextsOf, records) == [TextsOf(header), TextsOf(six)];
  }

  /**
   * As written, one transcript whose single message comes from a sender
   * named `first,last` exports a file whose message record has six fields.
   */
  lemma AsWrittenExportSplitsCommaName(t: Transcript, iso: Time -> string, first: string, last: string)
    requires |t.messages| == 1
    requires BareColumnsPlain(NameQuoted, t.conversationId, t.messages[0], iso) && Plain(first) && Plain(last)
    requires t.messages[0].sender.name == first + "," + last
    ensures var m := t.messages[0];
      Parse(TranscriptsToCsv(NameBare, [t], iso))
        == Some([CsvHeaders, [t.conversationId, iso(m.timestamp), first, last, m.kind, m.content]])
  {
    OneCommaNameWrites(t, iso, first, last);
    SplitRecordsRead(HeaderCells(), t.conversationId, t.messages[0], iso, first, last);
  }

  // ---------------------------------------------------------------------
  // HTML escaping.
  // ---------------------------------------------------------------------

  predicate Special(c: char) {
    c == '&' || c == '<' || c == '>' || c == '"' || c == '\''
  }

  function EscapeChar(c: char): (r: string)
    ensures !Special(c) ==> r == [c]
    ensures |r| >= 1
    ensures Special(c) ==> r[0] == '&' && forall k :: 0 <= k < |r| ==> r[k] == '&' || !Special(r[k])
  {
    if c == '&' then "&amp;"
    else if c == '<' then "&lt;"
    else if c == '>' then "&gt;"
    else if c == '"' then "&quot;"
    else if c == '\'' then "&#039;"
    else [c]
  }

  /** `escapeHtml`: each of & < > " ' becomes its entity in one pass; nothing else changes. */
  function EscapeHtml(s: string): (r: string)
    ensures |r| >= |s|
    ensures forall k :: 0 <= k < |r| ==> r[k] == '&' || !Special(r[k])
    ensures (forall k :: 0 <= k < |s| ==> !Special(s[k])) ==> r == s
  {
    if s == [] then [] else EscapeChar(s[0]) + EscapeHtml(s[1..])
  }

  /** Reading the entities back. */
  function UnescapeHtml(s: string): string
    decreases |s|
  {
    if s == [] then []
    else if IsPrefix("&amp;", s) then "&" + UnescapeHtml(s[5..])
    else if IsPrefix("&lt;", s) then "<" + UnescapeHtml(s[4..])
    else if IsPrefix("&gt;", s) then ">" + UnescapeHtml(s[4..])
    else if IsPrefix("&quot;", s) then "\"" + UnescapeHtml(s[6..])
    else if IsPrefix("&#039;", s) then "'" + UnescapeHtml(s[6..])
    else [s[0]] + UnescapeHtml(s[1..])
  }

  lemma UnescapeAmp(rest: string)
    ensures UnescapeHtml("&amp;" + rest) == "&" + UnescapeHtml(rest)
  {
    var x := "&amp;" + rest;
    assert x[..5] == "&amp;" && x[5..] == rest;
  }

  lemma UnescapeLt(rest: string)
    ensures UnescapeHtml("&lt;" + rest) == "<" + UnescapeHtml(rest)
  {
    var x := "&lt;" + rest;
    assert x[1] == 'l' && x[..4] == "&lt;" && x[4..] == rest;
  }

  lemma UnescapeGt(rest: string)
    ensures UnescapeHtml("&gt;" + rest) == ">" + UnescapeHtml(rest)
  {
    var x := "&gt;" + rest;
    assert x[1] == 'g' && x[..4] == "&gt;" && x[4..] == rest;
  }

  lemma UnescapeQuot(rest: string)
    ensures UnescapeHtml("&quot;" + rest) == "\"" + UnescapeHtml(rest)
  {
    var x := "&quot;" + rest;
    assert x[1] == 'q' && x[..6] == "&quot;" && x[6..] == rest;
  }

  lemma UnescapeApos(rest: string)
    ensures UnescapeHtml("&#039;" + rest) == "'" + UnescapeHtml(rest)
  {
    var x := "&#039;" + rest;
    assert x[1] == '#' && x[..6] == "&#039;" && x[6..] == rest;
  }

  lemma UnescapePlain(c: char, rest: string)
    requires !Special(c)
    ensures UnescapeHtml([c] + rest) == [c] + UnescapeHtml(rest)
  {
    var x := [c] + rest;
    assert x[0] == c && x[1..] == rest;
  }

  /** One escaped character is read back as itself. */
  lemma UnescapeChar(c: char, rest: string)
    ensures UnescapeHtml(EscapeChar(c) + rest) == [c] + UnescapeHtml(rest)
  {
    if c == '&' {
      UnescapeAmp(rest);
    } else if c == '<' {
      UnescapeLt(rest);
    } else if c == '>' {
      UnescapeGt(rest);
    } else if c == '"' {
      UnescapeQuot(rest);
    } else if c == '\'' {
      UnescapeApos(rest);
    } else {
      UnescapePlain(c, rest);
    }
  }

  /** Escaping loses nothing: unescaping gives the text back, so distinct texts escape differently. */
  lemma {:induction false} EscapeHtmlRoundTrip(s: string)
    ensures UnescapeHtml(EscapeHtml(s)) == s
  {
    if s != [] {
      UnescapeChar(s[0], EscapeHtml(s[1..]));
      EscapeHtmlRoundTrip(s[1..]);
      assert [s[0]] + s[1..] == s;
    }
  }

  // ---------------------------------------------------------------------
  // Batch exports kept in memory.
  // ---------------------------------------------------------------------

  datatype ExportStatus = Pending | Processing | Completed | Failed

  datatype TranscriptExport = TranscriptExport(
    id: string,
    conversationIds: seq<string>,
    format: string,
    status: ExportStatus,
    requestedBy: string,
    requestedAt: Time,
    completedAt: Option<Time>,
    downloadUrl: Option<string>,
    expiresAt: Option<Time>,
    error: Option<string>,
    options: GenerationOptions)

  type Exports = map<string, TranscriptExport>

  const DownloadPrefix := "/api/transcripts/download/"
  /** Download links expire seven days after completion. */
  const LinkLifetime: int := 7 * DayMs
  /** Exports stay in memory for a day after they were requested. */
  const ExportMemory: int := DayMs

  /** `updateExportStatus`. */
  function UpdateExportStatus(exports: Exports, exportId: string, status: ExportStatus, error: Option<string>,
                              filename: Option<string>, now: Time): (r: Exports)
    ensures exportId !in exports ==> r == exports
    ensures r.Keys == exports.Keys
    ensures forall id :: id in exports && id != exportId ==> r[id] == exports[id]
    ensures exportId in exports ==>
      var e := exports[exportId];
      var e' := r[exportId];
      && e'.status == status
      && e'.error == (if Given(error) then error else e.error)
      && (Given(filename) ==>
            && e'.downloadUrl == Some(DownloadPrefix + filename.value)
            && e'.completedAt == Some(now) && e'.expiresAt == Some(now + LinkLifetime))
      && (!Given(filename) ==>
            e'.downloadUrl == e.downloadUrl && e'.completedAt == e.completedAt && e'.expiresAt == e.expiresAt)
      && e'.(status := e.status, error := e.error, downloadUrl := e.downloadUrl,
             completedAt := e.completedAt, expiresAt := e.expiresAt) == e
  {
    if exportId !in exports then exports
    else
      var e := exports[exportId].(status := status);
      var e := if Given(error) then e.(error := error) else e;
      var e := if Given(filename)
               then e.(downloadUrl := Some(DownloadPrefix + filename.value), completedAt := Some(now),
                       expiresAt := Some(now + LinkLifetime))
               else e;
      exports[exportId := e]
  }

  /** Repeating a status update changes nothing more. */
  lemma UpdateExportStatusIdempotent(exports: Exports, exportId: string, status: ExportStatus, error: Option<string>,
                                     filename: Option<string>, now: Time)
    ensures var once := UpdateExportStatus(exports, exportId, status, error, filename, now);
      UpdateExportStatus(once, exportId, status, error, filename, now) == once
  {
  }

  /** The in-memory part of `cleanupOldExports`. */
  function CleanupOldExports(exports: Exports, now: Time): (r: Exports)
    ensures forall id :: id in r ==> id in exports && r[id] == exports[id]
    ensures forall id :: id in exports ==> (id in r <==> exports[id].requestedAt >= now - ExportMemory)
  {
    map id | id in exports && exports[id].requestedAt >= now - ExportMemory :: exports[id]
  }

  /** A later cleanup subsumes an earlier one. */
  lemma CleanupLater(exports: Exports, now: Time, later: Time)
    requires now <= later
    ensures CleanupOldExports(CleanupOldExports(exports, now), later) == CleanupOldExports(exports, later)
  {
  }

  /** Status updates never touch `requestedAt`, so cleanup and updates commute. */
  lemma CleanupCommutesWithUpdate(exports: Exports, exportId: string, status: ExportStatus, error: Option<string>,
                                  filename: Option<string>, now: Time, cleanupAt: Time)
    ensures CleanupOldExports(UpdateExportStatus(exports, exportId, status, error, filename, now), cleanupAt)
            == UpdateExportStatus(CleanupOldExports(exports, cleanupAt), exportId, status, error, filename, now)
  {
    var u := UpdateExportStatus(exports, exportId, status, error, filename, now);
    var c := CleanupOldExports(exports, cleanupAt);
    var a := CleanupOldExports(u, cleanupAt);
    var b := UpdateExportStatus(c, exportId, status, error, filename, now);
    forall id | id in exports ensures u[id].requestedAt == exports[id].requestedAt {
      if id == exportId {
        var e := exports[id];
        assert u[id].(status := e.status, error := e.error, downloadUrl := e.downloadUrl,
                      completedAt := e.completedAt, expiresAt := e.expiresAt) == e;
      }
    }
    assert a.Keys == b.Keys;
    forall id | id in a ensures a[id] == b[id] {
      if id == exportId {
        assert a[id] == u[id] && c[id] == exports[id];
      }
    }
  }

  /** `createBatchExport`: a pending record under the new id, format defaulting to JSON. */
  function CreateBatchExport(exports: Exports, conversationIds: seq<string>, requestedBy: string,
                             options: GenerationOptions, exportId: string, now: Time): (r: Exports)
    ensures exportId in r && r.Keys == exports.Keys + {exportId}
    ensures r[exportId].status == Pending && r[exportId].conversationIds == conversationIds
    ensures r[exportId].format == OrElse(options.format, "json") && r[exportId].requestedAt == now
    ensures r[exportId].downloadUrl.None? && r[exportId].error.None?
    ensures forall id :: id in exports && id != exportId ==> r[id] == exports[id]
  {
    exports[exportId := TranscriptExport(exportId, conversationIds, OrElse(options.format, "json"), Pending,
                                         requestedBy, now, None, None, None, None, options)]
  }

  function IsKnown(st: Store): string -> bool {
    (id: string) => FindConversation(st, id).Some?
  }

  /**
   * A conversation's transcript with the options applied, or nothing when
   * generating it fails. `hidden` is the deletion test the options use:
   * `DeletedInMetadata` gives the export as the job writes it,
   * `MarkedDeleted` the corrected one.
   */
  function TranscriptFor(st: Store, id: string, options: GenerationOptions, now: Time,
                         hidden: TranscriptMessage -> bool): (r: Option<Transcript>)
    ensures r.Some? <==> IsKnown(st)(id)
    ensures r.Some? ==> r.value.conversationId == id
    ensures r.Some? ==>
      var basic := BasicTranscript(st, id, now).value;
      && r.value.messages == Map(Shaped(options), Filter(KeptBy(options, hidden), basic.messages))
      && r.value.metrics == (if On(options.includeMetrics) then basic.metrics else None)
      && r.value == basic.(messages := r.value.messages, metrics := r.value.metrics)
  {
    match BasicTranscript(st, id, now)
    case Ok(t) => Some(ApplyOptionsWith(t, Some(options), hidden))
    case Err(_) => None
  }

  /** The ids of a batch whose conversation exists, in order. */
  function KnownIds(st: Store, ids: seq<string>): (r: seq<string>)
    ensures |r| <= |ids|
  {
    if ids == [] then []
    else (if FindConversation(st, ids[0]).Some? then [ids[0]] else []) + KnownIds(st, ids[1..])
  }

  /** `KnownIds` is the filter of the ids by existence. */
  lemma {:induction false} KnownIdsFilter(st: Store, ids: seq<string>)
    ensures KnownIds(st, ids) == Filter(IsKnown(st), ids)
  {
    if ids != [] {
      KnownIdsFilter(st, ids[1..]);
    }
  }

  /** The ids whose generation succeeds, in order. */
  function SucceededIds<T>(generate: string -> Option<T>, ids: seq<string>): (r: seq<string>)
    ensures |r| <= |ids|
  {
    if ids == [] then []
    else (if generate(ids[0]).Some? then [ids[0]] else []) + SucceededIds(generate, ids[1..])
  }

  /** The loop over a batch: each id is generated in turn and a failure skips it. */
  function Successes<T>(generate: string -> Option<T>, ids: seq<string>): (r: seq<T>)
    ensures |r| == |SucceededIds(generate, ids)|
    ensures forall k :: 0 <= k < |r| ==> generate(SucceededIds(generate, ids)[k]) == Some(r[k])
  {
    if ids == [] then []
    else
      var rest := Successes(generate, ids[1..]);
      match generate(ids[0])
      case Some(t) =>
        assert SucceededIds(generate, ids) == [ids[0]] + SucceededIds(generate, ids[1..]);
        [t] + rest
      case None => rest
  }

  function TranscriptGenerator(st: Store, options: GenerationOptions, now: Time, hidden: TranscriptMessage -> bool)
    : string -> Option<Transcript>
  {
    (id: string) => TranscriptFor(st, id, options, now, hidden)
  }

  /** A generator that fails exactly for unknown conversations succeeds on the known ids. */
  lemma {:induction false} SucceededAreKnown<T>(st: Store, g: string -> Option<T>, ids: seq<string>)
    requires forall id :: g(id).Some? <==> FindConversation(st, id).Some?
    ensures SucceededIds(g, ids) == KnownIds(st, ids)
  {
    if ids != [] {
      SucceededAreKnown(st, g, ids[1..]);
    }
  }

  /** Generation fails exactly for unknown conversations, so a batch has one transcript per known id. */
  lemma BatchCoversKnownIds(st: Store, options: GenerationOptions, now: Time, hidden: TranscriptMessage -> bool,
                            ids: seq<string>)
    ensures SucceededIds(TranscriptGenerator(st, options, now, hidden), ids) == KnownIds(st, ids)
    ensures var r := Successes(TranscriptGenerator(st, options, now, hidden), ids);
      forall k :: 0 <= k < |r| ==> r[k].conversationId == KnownIds(st, ids)[k]
  {
    var g := TranscriptGenerator(st, options, now, hidden);
    forall id ensures g(id).Some? <==> FindConversation(st, id).Some? {
      assert g(id) == TranscriptFor(st, id, options, now, hidden);
    }
    SucceededAreKnown(st, g, ids);
    var r := Successes(g, ids);
    forall k | 0 <= k < |r| ensures r[k].conversationId == KnownIds(st, ids)[k] {
      var id := SucceededIds(g, ids)[k];
      assert g(id) == TranscriptFor(st, id, options, now, hidden) == Some(r[k]);
    }
  }

  /** What is written for a batch: nothing is written for a format other than JSON, CSV or HTML. */
  datatype ExportFile = JsonFile(transcripts: seq<Transcript>) | CsvFile(text: string) | HtmlFile(transcripts: seq<Transcript>) | NoFile

  function ExportFileFor(format: string, ts: seq<Transcript>, iso: Time -> string, name: NameColumn): (f: ExportFile)
    ensures f.NoFile? <==> format != "json" && format != "csv" && format != "html"
    ensures f.CsvFile? ==> f == CsvFile(TranscriptsToCsv(name, ts, iso))
  {
    if format == "json" then JsonFile(ts)
    else if format == "csv" then CsvFile(TranscriptsToCsv(name, ts, iso))
    else if format == "html" then HtmlFile(ts)
    else NoFile
  }

  /**
   * `processBatchExport`: an unknown export is an error; otherwise the
   * export is processed and then completed with a download link, whatever
   * its format. `hidden` is the deletion test, as for `TranscriptFor`, and
   * `name` how the CSV writes the sender name (`NameBare` as the job does).
   */
  function ProcessBatchExport(exports: Exports, st: Store, exportId: string, now: Time, iso: Time -> string,
                              hidden: TranscriptMessage -> bool, name: NameColumn)
    : (r: Result<(Exports, ExportFile)>)
    ensures exportId !in exports <==> r.Err?
    ensures r.Err? ==> r == Err(Thrown("Export " + exportId + " not found"))
    ensures r.Ok? ==>
      var (exports', file) := r.value;
      var e := exports[exportId];
      && exports'.Keys == exports.Keys
      && exports'[exportId].status == Completed
      && exports'[exportId].downloadUrl == Some(DownloadPrefix + exportId + "." + e.format)
      && exports'[exportId].expiresAt == Some(now + LinkLifetime)
      && file == ExportFileFor(e.format, Successes(TranscriptGenerator(st, e.options, now, hidden), e.conversationIds), iso, name)
      && (forall id :: id in exports && id != exportId ==> exports'[id] == exports[id])
  {
    if exportId !in exports then Err(Thrown("Export " + exportId + " not found"))
    else
      var e := exports[exportId];
      var processing := UpdateExportStatus(exports, exportId, Processing, None, None, now);
      var transcripts := Successes(TranscriptGenerator(st, e.options, now, hidden), e.conversationIds);
      var filename := exportId + "." + e.format;
      assert Given(Some(filename)) by { assert |filename| > 0; }
      assert DownloadPrefix + filename == DownloadPrefix + exportId + "." + e.format;
      var file := ExportFileFor(e.format, transcripts, iso, name);
      Ok((UpdateExportStatus(processing, exportId, Completed, None, Some(filename), now), file))
  }

  /**
   * A whole batch export: the record is created, processed, and marked
   * failed with the error's message when writing the file fails.
   */
  function RunBatchExport(exports: Exports, st: Store, ids: seq<string>, requestedBy: string,
                          options: GenerationOptions, exportId: string, now: Time, iso: Time -> string,
                          writeError: Option<string>, hidden: TranscriptMessage -> bool, name: NameColumn)
    : (r: (Exports, ExportFile))
    ensures exportId in r.0 && r.0.Keys == exports.Keys + {exportId}
    ensures r.0[exportId].status == (if writeError.Some? then ExportStatus.Failed else Completed)
    ensures writeError.Some? ==> r.1.NoFile? && r.0[exportId].downloadUrl.None?
    ensures Given(writeError) ==> r.0[exportId].error == writeError
    ensures writeError.None? ==>
      r.1 == ExportFileFor(OrElse(options.format, "json"), Successes(TranscriptGenerator(st, options, now, hidden), ids), iso, name)
    ensures forall id :: id in exports && id != exportId ==> r.0[id] == exports[id]
  {
    var created := CreateBatchExport(exports, ids, requestedBy, options, exportId, now);
    if writeError.Some? then
      var processing := UpdateExportStatus(created, exportId, Processing, None, None, now);
      (UpdateExportStatus(processing, exportId, ExportStatus.Failed, writeError, None, now), NoFile)
    else
      match ProcessBatchExport(created, st, exportId, now, iso, hidden, name)
      case Ok(done) => done
      case Err(_) => (created, NoFile)
  }

  // ---------------------------------------------------------------------
  // The hourly run.
  // ---------------------------------------------------------------------

  const TranscriptKey := "transcript"
  const RecentlyClosed: int := 2 * HourMs

  /** Closed, with a closing time within the last two hours. */
  function DueAt(now: Time): Conversation -> bool {
    (c: Conversation) => c.status == Closed && c.closedAt.Some? && c.closedAt.value >= now - RecentlyClosed
  }

  /** `checkExistingTranscript`: the conversation's metadata already names a transcript. */
  predicate HasTranscript(st: Store, conversationId: string) {
    var c := FindConversation(st, conversationId);
    c.Some? && TranscriptKey in c.value.metadata
  }

  function TranscriptFilename(conversationId: string, stamp: string): string {
    "transcript_" + conversationId + "_" + stamp + ".json"
  }

  /** `saveTranscriptReference`: the conversation's metadata gains a transcript entry, other keys kept. */
  function SaveTranscriptReference(st: Store, conversationId: string, filename: string, t: Transcript): (st': Store)
    ensures st' == st.(conversations := st'.conversations)
    ensures |st'.conversations| == |st.conversations|
    ensures forall k :: 0 <= k < |st.conversations| ==> st'.conversations[k].id == st.conversations[k].id
  {
    var duration := if t.metrics.Some? then Some(t.metrics.value.duration) else None;
    var ref := TranscriptRef(filename, t.generatedAt, |t.messages|, duration);
    st.(conversations := Replace(st.conversations, ConversationId, conversationId,
                                 (c: Conversation) => c.(metadata := c.metadata[TranscriptKey := ref])))
  }

  /** Saving a reference gives that conversation a transcript and leaves the others' as they were. */
  lemma SaveTranscriptReferenceFind(st: Store, conversationId: string, filename: string, t: Transcript, other: string)
    requires FindConversation(st, conversationId).Some?
    ensures HasTranscript(SaveTranscriptReference(st, conversationId, filename, t), conversationId)
    ensures other != conversationId ==>
      FindConversation(SaveTranscriptReference(st, conversationId, filename, t), other) == FindConversation(st, other)
  {
    var duration := if t.metrics.Some? then Some(t.metrics.value.duration) else None;
    var ref := TranscriptRef(filename, t.generatedAt, |t.messages|, duration);
    var f := (c: Conversation) => c.(metadata := c.metadata[TranscriptKey := ref]);
    assert SaveTranscriptReference(st, conversationId, filename, t).conversations
           == Replace(st.conversations, ConversationId, conversationId, f);
    FindReplaceSame(st.conversations, ConversationId, conversationId, f);
    if other != conversationId {
      FindReplaceOther(st.conversations, ConversationId, conversationId, f, other);
    }
  }

  /** Saving a reference takes no transcript away. */
  lemma SaveTranscriptReferenceKeeps(st: Store, conversationId: string, filename: string, t: Transcript)
    requires FindConversation(st, conversationId).Some?
    ensures var st' := SaveTranscriptReference(st, conversationId, filename, t);
      HasTranscript(st', conversationId) && forall id :: HasTranscript(st, id) ==> HasTranscript(st', id)
  {
    var st' := SaveTranscriptReference(st, conversationId, filename, t);
    SaveTranscriptReferenceFind(st, conversationId, filename, t, conversationId);
    forall id | HasTranscript(st, id) ensures HasTranscript(st', id) {
      SaveTranscriptReferenceFind(st, conversationId, filename, t, id);
    }
  }

  datatype JobMetrics = JobMetrics(processedCount: nat, successCount: nat, errorCount: nat)

  /** What one visit of the scheduled job does with a conversation. */
  datatype Visit = Skipped | NotSaved | Saved

  /**
   * One conversation of the scheduled job: one that already has a
   * transcript is skipped, one in `failing` fails, and any other gets its
   * transcript saved.
   */
  method VisitScheduled(cur: Store, id: string, now: Time, stamp: string, failing: set<string>)
    returns (next: Store, outcome: Visit)
    requires FindConversation(cur, id).Some?
    ensures next == cur.(conversations := next.conversations)
    ensures |next.conversations| == |cur.conversations|
    ensures forall k :: 0 <= k < |cur.conversations| ==> next.conversations[k].id == cur.conversations[k].id
    ensures HasTranscript(cur, id) ==> outcome == Skipped && next == cur
    ensures !HasTranscript(cur, id) && id in failing ==> outcome == NotSaved && next == cur
    ensures !HasTranscript(cur, id) && id !in failing ==> outcome == Saved
    ensures id !in failing ==> HasTranscript(next, id)
    ensures forall x :: HasTranscript(cur, x) ==> HasTranscript(next, x)
    ensures forall x :: x != id ==> (HasTranscript(next, x) <==> HasTranscript(cur, x))
  {
    if HasTranscript(cur, id) {
      next, outcome := cur, Skipped;
    } else if id in failing {
      next, outcome := cur, NotSaved;
    } else {
      var t := BasicTranscript(cur, id, now).value;
      SaveTranscriptReferenceKeeps(cur, id, TranscriptFilename(id, stamp), t);
      forall x | x != id ensures HasTranscript(SaveTranscriptReference(cur, id, TranscriptFilename(id, stamp), t), x) <==> HasTranscript(cur, x) {
        SaveTranscriptReferenceFind(cur, id, TranscriptFilename(id, stamp), t, x);
      }
      next, outcome := SaveTranscriptReference(cur, id, TranscriptFilename(id, stamp), t), Saved;
    }
  }

  /** The conversations visited so far keep their transcripts when one more is visited. */
  lemma CoveredStep(due: seq<Conversation>, i: nat, failing: set<string>, before: Store, after: Store)
    requires i < |due|
    requires forall j :: 0 <= j < i && due[j].id !in failing ==> HasTranscript(before, due[j].id)
    requires forall x :: HasTranscript(before, x) ==> HasTranscript(after, x)
    requires due[i].id !in failing ==> HasTranscript(after, due[i].id)
    ensures forall j :: 0 <= j <= i && due[j].id !in failing ==> HasTranscript(after, due[j].id)
  {
    forall j | 0 <= j <= i && due[j].id !in failing ensures HasTranscript(after, due[j].id) {
      if j < i {
        assert HasTranscript(before, due[j].id);
      }
    }
  }

  /** A due conversation the run saves: it has no transcript yet and its file can be written. */
  function Unsaved(st: Store, failing: set<string>): Conversation -> bool {
    (c: Conversation) => !HasTranscript(st, c.id) && c.id !in failing
  }

  /** A due conversation the run counts as an error: it has no transcript yet and its file cannot be written. */
  function Unwritable(st: Store, failing: set<string>): Conversation -> bool {
    (c: Conversation) => !HasTranscript(st, c.id) && c.id in failing
  }

  /** How many of the first `n` conversations pass `p`. */
  function CountFirst(p: Conversation -> bool, due: seq<Conversation>, n: nat): nat
    requires n <= |due|
  {
    if n == 0 then 0 else CountFirst(p, due, n - 1) + (if p(due[n - 1]) then 1 else 0)
  }

  /** Counting the first `n` conversations one by one is the size of the filter of that prefix. */
  lemma {:induction false} CountFirstIsFilter(p: Conversation -> bool, due: seq<Conversation>, n: nat)
    requires n <= |due|
    ensures CountFirst(p, due, n) == |Filter(p, due[..n])|
  {
    if n > 0 {
      CountFirstIsFilter(p, due, n - 1);
      assert due[..n] == due[..n - 1] + [due[n - 1]];
      FilterAppend(p, due[..n - 1], [due[n - 1]]);
      assert Filter(p, [due[n - 1]]) == (if p(due[n - 1]) then [due[n - 1]] else []) + Filter(p, []);
    }
  }

  /**
   * One visit of the run, when conversation ids are distinct: the ones
   * still to visit keep the transcripts they started with, and the visit
   * counts a success exactly for a conversation without a transcript whose
   * file can be written, an error exactly for one whose file cannot.
   */
  lemma CountStep(st: Store, failing: set<string>, due: seq<Conversation>, i: nat, before: Store, after: Store,
                  outcome: Visit, success: nat, errors: nat)
    requires i < |due| && KeysDistinct(due, ConversationId)
    requires forall j :: i <= j < |due| ==> (HasTranscript(before, due[j].id) <==> HasTranscript(st, due[j].id))
    requires forall x :: x != due[i].id ==> (HasTranscript(after, x) <==> HasTranscript(before, x))
    requires HasTranscript(before, due[i].id) ==> outcome == Skipped
    requires !HasTranscript(before, due[i].id) && due[i].id in failing ==> outcome == NotSaved
    requires !HasTranscript(before, due[i].id) && due[i].id !in failing ==> outcome == Saved
    requires success == CountFirst(Unsaved(st, failing), due, i)
    requires errors == CountFirst(Unwritable(st, failing), due, i)
    ensures forall j :: i < j < |due| ==> (HasTranscript(after, due[j].id) <==> HasTranscript(st, due[j].id))
    ensures success + (if outcome == Saved then 1 else 0) == CountFirst(Unsaved(st, failing), due, i + 1)
    ensures errors + (if outcome == NotSaved then 1 else 0) == CountFirst(Unwritable(st, failing), due, i + 1)
  {
    forall j | i < j < |due| ensures HasTranscript(after, due[j].id) <==> HasTranscript(st, due[j].id) {
      assert ConversationId(due[i]) != ConversationId(due[j]);
    }
  }

  /**
   * What the run has established after visiting the first `i` due
   * conversations: only transcripts were added, each visited conversation
   * whose file can be written has one, and, when ids are distinct, the ones
   * still to visit are as they started and the counts are exact so far.
   */
  ghost predicate Visited(st: Store, due: seq<Conversation>, failing: set<string>, cur: Store, i: nat,
                    success: nat, errors: nat)
    requires i <= |due|
  {
    VisitedFacts(st, due, failing, cur, i, success, errors)
  }

  /** The facts `Visited` names, behind a second name so that the loop carries them as one fact. */
  ghost predicate VisitedFacts(st: Store, due: seq<Conversation>, failing: set<string>, cur: Store, i: nat,
                               success: nat, errors: nat)
    requires i <= |due|
  {
    && success + errors <= i
    && (failing == {} ==> errors == 0)
    && cur == st.(conversations := cur.conversations)
    && |cur.conversations| == |st.conversations|
    && (forall k :: 0 <= k < |st.conversations| ==> cur.conversations[k].id == st.conversations[k].id)
    && (forall j :: 0 <= j < i && due[j].id !in failing ==> HasTranscript(cur, due[j].id))
    && (forall id :: HasTranscript(st, id) ==> HasTranscript(cur, id))
    && (KeysDistinct(due, ConversationId) ==>
          && (forall j :: i <= j < |due| ==> (HasTranscript(cur, due[j].id) <==> HasTranscript(st, due[j].id)))
          && success == CountFirst(Unsaved(st, failing), due, i)
          && errors == CountFirst(Unwritable(st, failing), due, i))
  }

  /** One turn of the run's loop: the next due conversation is visited and counted. */
  method VisitNext(st: Store, due: seq<Conversation>, now: Time, stamp: string, failing: set<string>,
                   cur: Store, i: nat, success: nat, errors: nat)
    returns (next: Store, success': nat, errors': nat)
    requires forall c :: c in due ==> c in st.conversations
    requires i < |due| && Visited(st, due, failing, cur, i, success, errors)
    ensures Visited(st, due, failing, next, i + 1, success', errors')
  {
    var c := due[i];
    assert FindConversation(cur, c.id).Some? by {
      assert c in due;
      var k :| 0 <= k < |st.conversations| && st.conversations[k] == c;
      assert cur.conversations[k].id == c.id;
    }
    var outcome;
    next, outcome := VisitScheduled(cur, c.id, now, stamp, failing);
    CoveredStep(due, i, failing, cur, next);
    if KeysDistinct(due, ConversationId) {
      CountStep(st, failing, due, i, cur, next, outcome, success, errors);
    }
    success' := success + (if outcome == Saved then 1 else 0);
    errors' := errors + (if outcome == NotSaved then 1 else 0);
  }

  /** Nothing is established before the first visit, and nothing needs to be. */
  lemma VisitedNone(st: Store, due: seq<Conversation>, failing: set<string>)
    ensures Visited(st, due, failing, st, 0, 0, 0)
  {
  }

  /** Once every due conversation is visited, the counts are the sizes of the two filters. */
  lemma VisitedAllCounts(st: Store, due: seq<Conversation>, failing: set<string>, cur: Store, success: nat, errors: nat)
    requires Visited(st, due, failing, cur, |due|, success, errors)
    ensures KeysDistinct(due, ConversationId) ==>
      success == |Filter(Unsaved(st, failing), due)| && errors == |Filter(Unwritable(st, failing), due)|
    ensures forall c :: c in due && c.id !in failing ==> HasTranscript(cur, c.id)
  {
    assert due[..|due|] == due;
    CountFirstIsFilter(Unsaved(st, failing), due, |due|);
    CountFirstIsFilter(Unwritable(st, failing), due, |due|);
    forall c | c in due && c.id !in failing ensures HasTranscript(cur, c.id) {
      var j :| 0 <= j < |due| && due[j] == c;
    }
  }

  /**
   * The run's loop over the due conversations, which all exist in `st`:
   * each is visited in turn, and the counts are those of the visits that
   * saved and that failed.
   */
  method VisitAll(st: Store, due: seq<Conversation>, now: Time, stamp: string, failing: set<string>)
    returns (cur: Store, success: nat, errors: nat)
    requires forall c :: c in due ==> c in st.conversations
    ensures success + errors <= |due|
    ensures failing == {} ==> errors == 0
    ensures KeysDistinct(due, ConversationId) ==>
      success == |Filter(Unsaved(st, failing), due)| && errors == |Filter(Unwritable(st, failing), due)|
    ensures forall c :: c in due && c.id !in failing ==> HasTranscript(cur, c.id)
    ensures forall id :: HasTranscript(st, id) ==> HasTranscript(cur, id)
    ensures cur == st.(conversations := cur.conversations)
  {
    cur := st;
    success, errors := 0, 0;
    VisitedNone(st, due, failing);
    var i := 0;
    while i < |due|
      invariant 0 <= i <= |due|
      invariant Visited(st, due, failing, cur, i, success, errors)
    {
      cur, success, errors := VisitNext(st, due, now, stamp, failing, cur, i, success, errors);
      i := i + 1;
    }
    VisitedAllCounts(st, due, failing, cur, success, errors);
  }

  /**
   * `generateScheduledTranscripts`: every recently closed conversation is
   * visited once; one that already has a transcript is skipped, and a
   * failure is counted and does not stop the run. `failing` names the
   * conversations whose transcript file cannot be written; `stamp` is the
   * time text in the file names.
   */
  method GenerateScheduledTranscripts(st: Store, now: Time, stamp: string, failing: set<string>)
    returns (st': Store, metrics: JobMetrics)
    ensures metrics.processedCount == |Filter(DueAt(now), st.conversations)|
    ensures metrics.successCount + metrics.errorCount <= metrics.processedCount
    ensures failing == {} ==> metrics.errorCount == 0
    ensures KeysDistinct(st.conversations, ConversationId) ==>
      && metrics.successCount == |Filter(Unsaved(st, failing), Filter(DueAt(now), st.conversations))|
      && metrics.errorCount == |Filter(Unwritable(st, failing), Filter(DueAt(now), st.conversations))|
    ensures forall c :: c in st.conversations && DueAt(now)(c) && c.id !in failing ==> HasTranscript(st', c.id)
    ensures forall id :: HasTranscript(st, id) ==> HasTranscript(st', id)
    ensures st' == st.(conversations := st'.conversations)
  {
    var due := Filter(DueAt(now), st.conversations);
    if KeysDistinct(st.conversations, ConversationId) {
      KeysDistinctFilter(DueAt(now), st.conversations, ConversationId);
    }
    var success, errors;
    st', success, errors := VisitAll(st, due, now, stamp, failing);
    metrics := JobMetrics(|due|, success, errors);
  }
}
