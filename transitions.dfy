/** `analyze_status_transitions`: every ticket into `all_issues`, blocked
    tickets into `blocked_issues`, and every status change of an in-window
    history entry into at most one of five transition buckets. */
module Transitions {
  import opened Text
  import opened Jira
  import opened Classification

  /** The `all_issues` record of a ticket. A `description` of `None` is the
      JSON `null` the script copies through unchanged. */
  datatype IssueSummary = IssueSummary(
    key: string, summary: string, currentStatus: string, assignee: string,
    priority: string, issueType: string, description: Option<string>)

  /** The `blocked_issues` record of a ticket: as above, without the description. */
  datatype BlockedSummary = BlockedSummary(
    key: string, summary: string, currentStatus: string, assignee: string,
    priority: string, issueType: string)

  /** One status change of a ticket; `date` is the entry's parsed timestamp. */
  datatype TransitionRecord = TransitionRecord(
    key: string, summary: string, fromStatus: string, toStatus: string, date: int,
    assignee: string, priority: string, issueType: string, description: Option<string>)

  /** The five transition buckets, in the order the script tests them. */
  datatype Tally = Tally(
    movedToInProgress: seq<TransitionRecord>,
    movedToReview: seq<TransitionRecord>,
    movedToClosed: seq<TransitionRecord>,
    movedToDone: seq<TransitionRecord>,
    movedToResolved: seq<TransitionRecord>)

  /** The dictionary the classifier returns, one field per key. */
  datatype Buckets = Buckets(
    transitions: Tally,
    blockedIssues: seq<BlockedSummary>,
    allIssues: seq<IssueSummary>)

  /** The only way the classifier fails: a history timestamp that does not parse. */
  datatype Analysis = Ok(buckets: Buckets) | TimestampUnparsable

  /** The timestamp parser: the text before the first '.' of `created`, read
      on one abstract clock; `None` when it is not a timestamp. */
  type Parser = string -> Option<int>

  // ---------------------------------------------------------------------
  // Per-ticket values

  function AssigneeName(t: Ticket): string
  {
    t.assignee.GetOr("Unassigned")
  }

  function PriorityName(t: Ticket): string
  {
    t.priority.GetOr("None")
  }

  /** `fields.get("description", "")`: the default only for a missing key;
      a `null` stays `None`. */
  function DescriptionText(t: Ticket): Option<string>
  {
    match t.description
    case Absent => Some("")
    case Null => None
    case Text(d) => Some(d)
  }

  /** The `all_issues` record: the ticket's own fields, "Unassigned" and
      "None" for a `null` assignee or priority, "" for a missing description
      and `None` for a `null` one. */
  function Summarize(t: Ticket): (s: IssueSummary)
    ensures s.key == t.key && s.summary == t.summary && s.currentStatus == t.status && s.issueType == t.issueType
    ensures s.assignee == (if t.assignee.Some? then t.assignee.value else "Unassigned")
    ensures s.priority == (if t.priority.Some? then t.priority.value else "None")
    ensures (s.description == Some("") <==> t.description == Absent || t.description == Text(""))
    ensures (s.description.None? <==> t.description.Null?)
    ensures t.description.Text? ==> s.description == Some(t.description.text)
  {
    IssueSummary(t.key, t.summary, t.status, AssigneeName(t), PriorityName(t), t.issueType, DescriptionText(t))
  }

  /** The `blocked_issues` record: the same ticket fields and defaults as the
      `all_issues` record, without the description. */
  function BlockedRecord(t: Ticket): (b: BlockedSummary)
    ensures b.key == t.key && b.summary == t.summary && b.currentStatus == t.status && b.issueType == t.issueType
    ensures b.assignee == (if t.assignee.Some? then t.assignee.value else "Unassigned")
    ensures b.priority == (if t.priority.Some? then t.priority.value else "None")
  {
    BlockedSummary(t.key, t.summary, t.status, AssigneeName(t), PriorityName(t), t.issueType)
  }

  /** The blocked test: "blocked" in the lower-cased current status, or a
      priority object named exactly "Blocker"; a missing priority, which reads
      as "None", never counts. */
  function IsBlocked(t: Ticket): (b: bool)
    ensures b <==> Contains(Lower(t.status), "blocked") || t.priority == Some("Blocker")
  {
    Contains(Lower(t.status), "blocked") || PriorityName(t) == "Blocker"
  }

  predicate IsStatusChange(item: FieldChange)
  {
    item.field == Some("status")
  }

  /** The record of one status change: the change's two statuses ("" for a
      missing key), the entry's time, and the ticket's fields with the same
      defaults as its `all_issues` record. */
  function MakeRecord(t: Ticket, at: int, item: FieldChange): (r: TransitionRecord)
    ensures r.date == at
    ensures item.fromString.Some? ==> r.fromStatus == item.fromString.value
    ensures item.fromString.None? ==> r.fromStatus == ""
    ensures item.toString.Some? ==> r.toStatus == item.toString.value
    ensures item.toString.None? ==> r.toStatus == ""
    ensures r.key == t.key && r.summary == t.summary && r.issueType == t.issueType
    ensures r.assignee == (if t.assignee.Some? then t.assignee.value else "Unassigned")
    ensures r.priority == (if t.priority.Some? then t.priority.value else "None")
    ensures r.description == DescriptionText(t)
  {
    TransitionRecord(t.key, t.summary, item.fromString.GetOr(""), item.toString.GetOr(""), at,
      AssigneeName(t), PriorityName(t), t.issueType, DescriptionText(t))
  }

  function EntryTime(h: HistoryEntry, parse: Parser): Option<int>
  {
    parse(BeforeFirstDot(h.created))
  }

  predicate InWindow(h: HistoryEntry, cutoff: int, parse: Parser)
  {
    EntryTime(h, parse).Some? && EntryTime(h, parse).value >= cutoff
  }

  // ---------------------------------------------------------------------
  // The classifier's result as functions of its input. Each list is defined
  // by its last element, the order in which the script appends.

  function ItemRecords(t: Ticket, at: int, items: seq<FieldChange>): seq<TransitionRecord>
  {
    if items == [] then []
    else
      var last := items[|items| - 1];
      ItemRecords(t, at, items[..|items| - 1])
      + (if IsStatusChange(last) then [MakeRecord(t, at, last)] else [])
  }

  function EntryRecords(t: Ticket, h: HistoryEntry, cutoff: int, parse: Parser): seq<TransitionRecord>
  {
    if InWindow(h, cutoff, parse) then ItemRecords(t, EntryTime(h, parse).value, h.items) else []
  }

  function HistoryRecords(t: Ticket, hs: seq<HistoryEntry>, cutoff: int, parse: Parser): seq<TransitionRecord>
  {
    if hs == [] then []
    else HistoryRecords(t, hs[..|hs| - 1], cutoff, parse) + EntryRecords(t, hs[|hs| - 1], cutoff, parse)
  }

  function TicketRecords(t: Ticket, cutoff: int, parse: Parser): seq<TransitionRecord>
  {
    HistoryRecords(t, t.histories, cutoff, parse)
  }

  /** Every transition record of every ticket, in the order they are built. */
  function Records(issues: seq<Ticket>, cutoff: int, parse: Parser): seq<TransitionRecord>
  {
    if issues == [] then []
    else Records(issues[..|issues| - 1], cutoff, parse) + TicketRecords(issues[|issues| - 1], cutoff, parse)
  }

  /** The records whose destination status classifies as `c`, in order. */
  function Pick(recs: seq<TransitionRecord>, c: Option<Category>): seq<TransitionRecord>
  {
    if recs == [] then []
    else
      var last := recs[|recs| - 1];
      Pick(recs[..|recs| - 1], c) + (if Classify(last.toStatus) == c then [last] else [])
  }

  /** Files one record at the end of the bucket its destination classifies
      into; a record that classifies nowhere is dropped. */
  function FileRecord(d: Tally, rec: TransitionRecord): Tally
  {
    match Classify(rec.toStatus)
    case Some(Started) => d.(movedToInProgress := d.movedToInProgress + [rec])
    case Some(InReview) => d.(movedToReview := d.movedToReview + [rec])
    case Some(Closed) => d.(movedToClosed := d.movedToClosed + [rec])
    case Some(Done) => d.(movedToDone := d.movedToDone + [rec])
    case Some(Resolved) => d.(movedToResolved := d.movedToResolved + [rec])
    case None => d
  }

  /** Files the records onto `d` one at a time, in order. */
  function FileAll(d: Tally, recs: seq<TransitionRecord>): Tally
  {
    if recs == [] then d else FileRecord(FileAll(d, recs[..|recs| - 1]), recs[|recs| - 1])
  }

  const NoTransitions: Tally := Tally([], [], [], [], [])

  /** The five buckets a sequence of records fills, starting from empty ones. */
  function Distribute(recs: seq<TransitionRecord>): Tally
  {
    FileAll(NoTransitions, recs)
  }

  /** One more record goes to the end of the one bucket it classifies into. */
  lemma DistributeSnoc(recs: seq<TransitionRecord>, rec: TransitionRecord)
    ensures Distribute(recs + [rec]) ==
      var d := Distribute(recs);
      match Classify(rec.toStatus)
      case Some(Started) => d.(movedToInProgress := d.movedToInProgress + [rec])
      case Some(InReview) => d.(movedToReview := d.movedToReview + [rec])
      case Some(Closed) => d.(movedToClosed := d.movedToClosed + [rec])
      case Some(Done) => d.(movedToDone := d.movedToDone + [rec])
      case Some(Resolved) => d.(movedToResolved := d.movedToResolved + [rec])
      case None => d
  {
    FileAllSnoc(NoTransitions, recs, rec);
  }

  lemma FileAllSnoc(d: Tally, recs: seq<TransitionRecord>, rec: TransitionRecord)
    ensures FileAll(d, recs + [rec]) == FileRecord(FileAll(d, recs), rec)
  {
    assert (recs + [rec])[..|recs|] == recs;
  }

  /** Filing two runs of records one after the other is filing their concatenation. */
  lemma {:induction false} FileAllAppend(d: Tally, a: seq<TransitionRecord>, b: seq<TransitionRecord>)
    ensures FileAll(FileAll(d, a), b) == FileAll(d, a + b)
  {
    if b == [] {
      assert a + b == a;
    } else {
      var n := |b| - 1;
      FileAllAppend(d, a, b[..n]);
      assert (a + b)[..|a + b| - 1] == a + b[..n];
      assert (a + b)[|a + b| - 1] == b[n];
    }
  }

  /** Filing in order leaves in each bucket exactly the records that classify
      into it, in their original order. */
  lemma {:induction false} DistributePicks(recs: seq<TransitionRecord>)
    ensures Distribute(recs) == Tally(Pick(recs, Some(Started)), Pick(recs, Some(InReview)),
      Pick(recs, Some(Closed)), Pick(recs, Some(Done)), Pick(recs, Some(Resolved)))
  {
    if recs != [] {
      DistributePicks(recs[..|recs| - 1]);
    }
  }

  function Summaries(issues: seq<Ticket>): seq<IssueSummary>
  {
    seq(|issues|, i requires 0 <= i < |issues| => Summarize(issues[i]))
  }

  function BlockedOf(issues: seq<Ticket>): seq<BlockedSummary>
  {
    if issues == [] then []
    else
      var last := issues[|issues| - 1];
      BlockedOf(issues[..|issues| - 1]) + (if IsBlocked(last) then [BlockedRecord(last)] else [])
  }

  predicate EntriesParse(hs: seq<HistoryEntry>, parse: Parser)
  {
    forall j :: 0 <= j < |hs| ==> EntryTime(hs[j], parse).Some?
  }

  predicate HistoriesParse(t: Ticket, parse: Parser)
  {
    EntriesParse(t.histories, parse)
  }

  predicate TimestampsParse(issues: seq<Ticket>, parse: Parser)
  {
    forall i :: 0 <= i < |issues| ==> HistoriesParse(issues[i], parse)
  }

  /** The classifier's result. It fails exactly when some history entry of
      some ticket has a timestamp that does not parse; otherwise `all_issues`
      holds one summary per ticket, in input order. */
  function Analyze(issues: seq<Ticket>, cutoff: int, parse: Parser): (r: Analysis)
    ensures r.TimestampUnparsable? <==>
      exists i, j :: 0 <= i < |issues| && 0 <= j < |issues[i].histories|
        && parse(BeforeFirstDot(issues[i].histories[j].created)).None?
    ensures r.Ok? ==> (|r.buckets.allIssues| == |issues|
      && forall i :: 0 <= i < |issues| ==> r.buckets.allIssues[i] == Summarize(issues[i]))
  {
    if !TimestampsParse(issues, parse) then TimestampUnparsable
    else
      Ok(Buckets(Distribute(Records(issues, cutoff, parse)), BlockedOf(issues), Summaries(issues)))
  }

  // Extending each walk by one step, as the loops below do.

  lemma RecordsSnoc(issues: seq<Ticket>, i: nat, cutoff: int, parse: Parser)
    requires i < |issues|
    ensures Records(issues[..i + 1], cutoff, parse)
         == Records(issues[..i], cutoff, parse) + TicketRecords(issues[i], cutoff, parse)
  {
    assert issues[..i + 1][..i] == issues[..i];
  }

  lemma HistoryRecordsSnoc(t: Ticket, hs: seq<HistoryEntry>, j: nat, cutoff: int, parse: Parser)
    requires j < |hs|
    ensures HistoryRecords(t, hs[..j + 1], cutoff, parse)
         == HistoryRecords(t, hs[..j], cutoff, parse) + EntryRecords(t, hs[j], cutoff, parse)
  {
    assert hs[..j + 1][..j] == hs[..j];
  }

  lemma ItemRecordsSnoc(t: Ticket, at: int, items: seq<FieldChange>, k: nat)
    requires k < |items|
    ensures ItemRecords(t, at, items[..k + 1])
         == ItemRecords(t, at, items[..k]) + (if IsStatusChange(items[k]) then [MakeRecord(t, at, items[k])] else [])
  {
    assert items[..k + 1][..k] == items[..k];
  }

  lemma BlockedOfSnoc(issues: seq<Ticket>, i: nat)
    requires i < |issues|
    ensures BlockedOf(issues[..i + 1])
         == BlockedOf(issues[..i]) + (if IsBlocked(issues[i]) then [BlockedRecord(issues[i])] else [])
  {
    assert issues[..i + 1][..i] == issues[..i];
  }

  lemma SummariesSnoc(issues: seq<Ticket>, i: nat)
    requires i < |issues|
    ensures Summaries(issues[..i + 1]) == Summaries(issues[..i]) + [Summarize(issues[i])]
  {
  }

  /** Filing one more entry's records continues the history walk. */
  lemma HistoryStep(t: Ticket, tally: Tally, j: nat, cutoff: int, parse: Parser)
    requires j < |t.histories|
    ensures FileAll(tally, HistoryRecords(t, t.histories[..j + 1], cutoff, parse))
         == FileAll(FileAll(tally, HistoryRecords(t, t.histories[..j], cutoff, parse)), EntryRecords(t, t.histories[j], cutoff, parse))
  {
    HistoryRecordsSnoc(t, t.histories, j, cutoff, parse);
    FileAllAppend(tally, HistoryRecords(t, t.histories[..j], cutoff, parse), EntryRecords(t, t.histories[j], cutoff, parse));
  }

  /** One more entry keeps every timestamp parsing exactly when its own does;
      an entry that does not parse spoils the whole history. */
  lemma EntriesParseStep(hs: seq<HistoryEntry>, j: nat, parse: Parser)
    requires j < |hs| && EntriesParse(hs[..j], parse)
    ensures EntriesParse(hs[..j + 1], parse) == EntryTime(hs[j], parse).Some?
    ensures EntryTime(hs[j], parse).None? ==> !EntriesParse(hs, parse)
  {
    assert hs[..j + 1][j] == hs[j];
    assert forall k :: 0 <= k < j ==> hs[..j + 1][k] == hs[..j][k];
  }

  /** Walking every entry files exactly the ticket's records. */
  lemma HistoryWalkDone(t: Ticket, tally: Tally, cutoff: int, parse: Parser)
    ensures FileAll(tally, HistoryRecords(t, t.histories[..|t.histories|], cutoff, parse))
         == FileAll(tally, TicketRecords(t, cutoff, parse))
    ensures EntriesParse(t.histories[..|t.histories|], parse) == HistoriesParse(t, parse)
  {
    assert t.histories[..|t.histories|] == t.histories;
  }

  /** Filing one more ticket's records continues the walk over the tickets. */
  lemma RecordsStep(issues: seq<Ticket>, i: nat, cutoff: int, parse: Parser)
    requires i < |issues|
    ensures Distribute(Records(issues[..i + 1], cutoff, parse))
         == FileAll(Distribute(Records(issues[..i], cutoff, parse)), TicketRecords(issues[i], cutoff, parse))
  {
    RecordsSnoc(issues, i, cutoff, parse);
    FileAllAppend(NoTransitions, Records(issues[..i], cutoff, parse), TicketRecords(issues[i], cutoff, parse));
  }

  lemma TimestampsParseStep(issues: seq<Ticket>, i: nat, parse: Parser)
    requires i < |issues| && TimestampsParse(issues[..i], parse)
    ensures TimestampsParse(issues[..i + 1], parse) == HistoriesParse(issues[i], parse)
  {
    assert issues[..i + 1][i] == issues[i];
    assert forall k :: 0 <= k < i ==> issues[..i + 1][k] == issues[..i][k];
  }

  /** One ticket whose timestamps do not all parse fails the whole call. */
  lemma AnalyzeFails(issues: seq<Ticket>, i: nat, cutoff: int, parse: Parser)
    requires i < |issues| && !HistoriesParse(issues[i], parse)
    ensures Analyze(issues, cutoff, parse) == TimestampUnparsable
  {
  }

  /** When every timestamp parses, the result is the three walks. */
  lemma AnalyzeSucceeds(issues: seq<Ticket>, cutoff: int, parse: Parser)
    requires TimestampsParse(issues[..|issues|], parse)
    ensures Analyze(issues, cutoff, parse) == Ok(Buckets(Distribute(Records(issues[..|issues|], cutoff, parse)),
      BlockedOf(issues[..|issues|]), Summaries(issues[..|issues|])))
  {
    assert issues[..|issues|] == issues;
  }

  // ---------------------------------------------------------------------
  // The classifier itself

  /** The innermost loop of the walk: files every status change among one
      in-window entry's items, stamped `at`, into its bucket. */
  method FileStatusChanges(t: Ticket, at: int, items: seq<FieldChange>, tally: Tally) returns (filed: Tally)
    ensures filed == FileAll(tally, ItemRecords(t, at, items))
  {
    filed := tally;
    for k := 0 to |items|
      invariant filed == FileAll(tally, ItemRecords(t, at, items[..k]))
    {
      var item := items[k];
      ItemRecordsSnoc(t, at, items, k);
      if IsStatusChange(item) {
        var rec := MakeRecord(t, at, item);
        FileAllSnoc(tally, ItemRecords(t, at, items[..k]), rec);
        var c := Classify(rec.toStatus);
        match c
        case Some(Started) => filed := filed.(movedToInProgress := filed.movedToInProgress + [rec]);
        case Some(InReview) => filed := filed.(movedToReview := filed.movedToReview + [rec]);
        case Some(Closed) => filed := filed.(movedToClosed := filed.movedToClosed + [rec]);
        case Some(Done) => filed := filed.(movedToDone := filed.movedToDone + [rec]);
        case Some(Resolved) => filed := filed.(movedToResolved := filed.movedToResolved + [rec]);
        case None =>
      } else {
        assert ItemRecords(t, at, items[..k]) + [] == ItemRecords(t, at, items[..k]);
      }
    }
    assert items[..|items|] == items;
  }

  /** One history entry: parses its timestamp and, when it is in the window,
      files its status changes. `at` is `None` where the script raises. */
  method FileEntry(t: Ticket, h: HistoryEntry, cutoff: int, parse: Parser, tally: Tally)
    returns (at: Option<int>, filed: Tally)
    ensures at == EntryTime(h, parse)
    ensures at.Some? ==> filed == FileAll(tally, EntryRecords(t, h, cutoff, parse))
  {
    filed := tally;
    at := parse(BeforeFirstDot(h.created));
    if at.Some? && at.value >= cutoff {
      filed := FileStatusChanges(t, at.value, h.items, filed);
    }
  }

  /** The middle loop of the walk: one ticket's history entries. `ok` is false
      when an entry's timestamp does not parse, where the script raises. */
  method FileTicketHistory(t: Ticket, cutoff: int, parse: Parser, tally: Tally) returns (ok: bool, filed: Tally)
    ensures ok == HistoriesParse(t, parse)
    ensures ok ==> filed == FileAll(tally, TicketRecords(t, cutoff, parse))
  {
    var hs := t.histories;
    filed := tally;
    assert EntriesParse(hs[..0], parse);
    for j := 0 to |hs|
      invariant EntriesParse(hs[..j], parse)
      invariant filed == FileAll(tally, HistoryRecords(t, hs[..j], cutoff, parse))
    {
      HistoryStep(t, tally, j, cutoff, parse);
      EntriesParseStep(hs, j, parse);
      var at, next := FileEntry(t, hs[j], cutoff, parse, filed);
      if at.None? {
        return false, next;
      }
      filed := next;
    }
    HistoryWalkDone(t, tally, cutoff, parse);
    ok := true;
  }

  /** `analyze_status_transitions`: walks the tickets in order, filing each
      into `all_issues`, into `blocked_issues` when blocked, and its in-window
      status changes into the transition buckets. */
  method AnalyzeStatusTransitions(issues: seq<Ticket>, cutoff: int, parse: Parser) returns (r: Analysis)
    ensures r == Analyze(issues, cutoff, parse)
  {
    var tally := NoTransitions;
    var blockedIssues := [];
    var allIssues := [];

    for i := 0 to |issues|
      invariant allIssues == Summaries(issues[..i])
      invariant blockedIssues == BlockedOf(issues[..i])
      invariant TimestampsParse(issues[..i], parse)
      invariant tally == Distribute(Records(issues[..i], cutoff, parse))
    {
      var t := issues[i];
      SummariesSnoc(issues, i);
      BlockedOfSnoc(issues, i);
      RecordsStep(issues, i, cutoff, parse);
      TimestampsParseStep(issues, i, parse);
      allIssues := allIssues + [Summarize(t)];
      if IsBlocked(t) {
        blockedIssues := blockedIssues + [BlockedRecord(t)];
      }
      var ok;
      ok, tally := FileTicketHistory(t, cutoff, parse, tally);
      if !ok {
        AnalyzeFails(issues, i, cutoff, parse);
        return TimestampUnparsable;
      }
    }
    AnalyzeSucceeds(issues, cutoff, parse);
    r := Ok(Buckets(tally, blockedIssues, allIssues));
  }
}
