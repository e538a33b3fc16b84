/** What the classifier's result means: where every record comes from, which
    bucket it lands in, and what the ticket-level buckets hold. */
module TransitionFacts {
  import opened Text
  import opened Jira
  import opened Classification
  import opened Transitions

  // ---------------------------------------------------------------------
  // Timestamps

  /** The cut made before parsing is the unique prefix that ends before the
      first '.' (or is the whole text). */
  lemma {:induction false} BeforeFirstDotAt(s: string, n: nat)
    requires n <= |s| && (forall i :: 0 <= i < n ==> s[i] != '.') && (n == |s| || s[n] == '.')
    ensures BeforeFirstDot(s) == s[..n]
  {
    if n > 0 {
      BeforeFirstDotAt(s[1..], n - 1);
      assert [s[0]] + s[1..][..n - 1] == s[..n];
    }
  }

  /** The tracker's usual format loses its fraction and offset. */
  lemma TrackerTimestampCut()
    ensures BeforeFirstDot("2024-01-15T10:30:45.123+0000") == "2024-01-15T10:30:45"
  {
    var s := "2024-01-15T10:30:45.123+0000";
    BeforeFirstDotAt(s, 19);
  }

  /** Without a fraction nothing is cut, so the offset reaches the parser. */
  lemma NoFractionKeepsOffset()
    ensures BeforeFirstDot("2024-01-15T10:30:45+0000") == "2024-01-15T10:30:45+0000"
  {
    var s := "2024-01-15T10:30:45+0000";
    BeforeFirstDotAt(s, |s|);
  }

  // ---------------------------------------------------------------------
  // all_issues and blocked_issues

  /** Tickets that differ only in their histories. */
  predicate SameButHistory(a: seq<Ticket>, b: seq<Ticket>)
  {
    |a| == |b| && forall i :: 0 <= i < |a| ==> a[i].(histories := b[i].histories) == b[i]
  }

  /** `blocked_issues` is the blocked tickets in input order: filtering
      distributes over concatenation. */
  lemma {:induction false} BlockedOfAppend(a: seq<Ticket>, b: seq<Ticket>)
    ensures BlockedOf(a + b) == BlockedOf(a) + BlockedOf(b)
  {
    if b == [] {
      assert a + b == a;
    } else {
      var n := |b| - 1;
      var last := if IsBlocked(b[n]) then [BlockedRecord(b[n])] else [];
      BlockedOfAppend(a, b[..n]);
      assert (a + b)[..|a + b| - 1] == a + b[..n];
      assert (a + b)[|a + b| - 1] == b[n];
      assert BlockedOf(a + b) == BlockedOf(a + b[..n]) + last;
      assert BlockedOf(b) == BlockedOf(b[..n]) + last;
      assert BlockedOf(a) + BlockedOf(b[..n]) + last == BlockedOf(a) + (BlockedOf(b[..n]) + last);
    }
  }

  lemma {:induction false} BlockedSound(issues: seq<Ticket>, x: BlockedSummary)
    requires x in BlockedOf(issues)
    ensures exists i :: 0 <= i < |issues| && IsBlocked(issues[i]) && x == BlockedRecord(issues[i])
  {
    var n := |issues| - 1;
    var init := issues[..n];
    if x in BlockedOf(init) {
      BlockedSound(init, x);
      var i :| 0 <= i < |init| && IsBlocked(init[i]) && x == BlockedRecord(init[i]);
      assert issues[i] == init[i];
    } else {
      assert IsBlocked(issues[n]) && x == BlockedRecord(issues[n]);
    }
  }

  lemma {:induction false} BlockedComplete(issues: seq<Ticket>, i: nat)
    requires i < |issues| && IsBlocked(issues[i])
    ensures BlockedRecord(issues[i]) in BlockedOf(issues)
  {
    var n := |issues| - 1;
    var init := issues[..n];
    assert BlockedOf(issues) == BlockedOf(init) + (if IsBlocked(issues[n]) then [BlockedRecord(issues[n])] else []);
    if i < n {
      assert init[i] == issues[i];
      BlockedComplete(init, i);
    }
  }

  /** A ticket is in `blocked_issues` exactly when it passes the blocked test. */
  lemma BlockedMembership(issues: seq<Ticket>, x: BlockedSummary)
    ensures x in BlockedOf(issues) <==>
      exists i :: 0 <= i < |issues| && IsBlocked(issues[i]) && x == BlockedRecord(issues[i])
  {
    if x in BlockedOf(issues) {
      BlockedSound(issues, x);
    }
    if exists i :: 0 <= i < |issues| && IsBlocked(issues[i]) && x == BlockedRecord(issues[i]) {
      var i :| 0 <= i < |issues| && IsBlocked(issues[i]) && x == BlockedRecord(issues[i]);
      BlockedComplete(issues, i);
    }
  }

  /** Neither ticket-level bucket depends on the changelog. */
  lemma {:induction false} TicketBucketsIgnoreHistory(a: seq<Ticket>, b: seq<Ticket>)
    requires SameButHistory(a, b)
    ensures BlockedOf(a) == BlockedOf(b)
    ensures Summaries(a) == Summaries(b)
  {
    if a != [] {
      var n := |a| - 1;
      assert SameButHistory(a[..n], b[..n]) by {
        forall i | 0 <= i < n
          ensures a[..n][i].(histories := b[..n][i].histories) == b[..n][i]
        {
          assert a[..n][i] == a[i] && b[..n][i] == b[i];
        }
      }
      TicketBucketsIgnoreHistory(a[..n], b[..n]);
      assert a[n].(histories := b[n].histories) == b[n];
      assert IsBlocked(a[n]) == IsBlocked(b[n]) && BlockedRecord(a[n]) == BlockedRecord(b[n]);
    }
  }

  lemma BlockedWaitingIsBlocked(t: Ticket)
    requires t.status == "Blocked - Waiting"
    ensures IsBlocked(t)
  {
    assert Lower(t.status) == "blocked - waiting";
    assert OccursAt(Lower(t.status), "blocked", 0);
  }

  /** A `null` assignee and priority read as "Unassigned" and "None" in every record. */
  lemma MissingFieldDefaults(t: Ticket, at: int, item: FieldChange)
    ensures t.assignee.None? ==>
      Summarize(t).assignee == "Unassigned" && BlockedRecord(t).assignee == "Unassigned"
      && MakeRecord(t, at, item).assignee == "Unassigned"
    ensures t.priority.None? ==>
      Summarize(t).priority == "None" && BlockedRecord(t).priority == "None"
      && MakeRecord(t, at, item).priority == "None" && IsBlocked(t) == Contains(Lower(t.status), "blocked")
  {
  }

  /** The three kinds of record built from a ticket agree on every field they
      share: the blocked record is the summary without its description, and a
      transition record repeats the summary's fields around the change. */
  lemma RecordsAgreeWithSummary(t: Ticket, at: int, item: FieldChange)
    ensures var s := Summarize(t);
      BlockedRecord(t) == BlockedSummary(s.key, s.summary, s.currentStatus, s.assignee, s.priority, s.issueType)
    ensures var s, r := Summarize(t), MakeRecord(t, at, item);
      r.key == s.key && r.summary == s.summary && r.assignee == s.assignee
      && r.priority == s.priority && r.issueType == s.issueType && r.description == s.description
  {
  }

  // ---------------------------------------------------------------------
  // Where transition records come from

  /** Item `k` of entry `j` of ticket `i` is a status change in the window. */
  ghost predicate Qualifies(issues: seq<Ticket>, cutoff: int, parse: Parser, i: int, j: int, k: int)
  {
    && 0 <= i < |issues| && 0 <= j < |issues[i].histories| && 0 <= k < |issues[i].histories[j].items|
    && InWindow(issues[i].histories[j], cutoff, parse)
    && IsStatusChange(issues[i].histories[j].items[k])
  }

  /** The record the script builds for that item. */
  ghost function RecordAt(issues: seq<Ticket>, cutoff: int, parse: Parser, i: int, j: int, k: int): TransitionRecord
    requires Qualifies(issues, cutoff, parse, i, j, k)
  {
    var h := issues[i].histories[j];
    MakeRecord(issues[i], EntryTime(h, parse).value, h.items[k])
  }

  lemma {:induction false} ItemRecordsSound(t: Ticket, at: int, items: seq<FieldChange>, x: TransitionRecord)
    requires x in ItemRecords(t, at, items)
    ensures exists k :: 0 <= k < |items| && IsStatusChange(items[k]) && x == MakeRecord(t, at, items[k])
  {
    var n := |items| - 1;
    if x in ItemRecords(t, at, items[..n]) {
      ItemRecordsSound(t, at, items[..n], x);
      var k :| 0 <= k < n && IsStatusChange(items[..n][k]) && x == MakeRecord(t, at, items[..n][k]);
      assert items[..n][k] == items[k];
    }
  }

  lemma {:induction false} ItemRecordsComplete(t: Ticket, at: int, items: seq<FieldChange>, k: nat)
    requires k < |items| && IsStatusChange(items[k])
    ensures MakeRecord(t, at, items[k]) in ItemRecords(t, at, items)
  {
    var n := |items| - 1;
    if k < n {
      assert items[..n][k] == items[k];
      ItemRecordsComplete(t, at, items[..n], k);
    }
  }

  lemma {:induction false} HistoryRecordsSound(t: Ticket, hs: seq<HistoryEntry>, cutoff: int, parse: Parser, x: TransitionRecord)
    requires x in HistoryRecords(t, hs, cutoff, parse)
    ensures exists j, k :: (0 <= j < |hs| && 0 <= k < |hs[j].items| && InWindow(hs[j], cutoff, parse)
      && IsStatusChange(hs[j].items[k]) && x == MakeRecord(t, EntryTime(hs[j], parse).value, hs[j].items[k]))
  {
    var n := |hs| - 1;
    if x in HistoryRecords(t, hs[..n], cutoff, parse) {
      HistoryRecordsSound(t, hs[..n], cutoff, parse, x);
      var j, k :| 0 <= j < n && 0 <= k < |hs[..n][j].items| && InWindow(hs[..n][j], cutoff, parse)
        && IsStatusChange(hs[..n][j].items[k]) && x == MakeRecord(t, EntryTime(hs[..n][j], parse).value, hs[..n][j].items[k]);
      assert hs[..n][j] == hs[j];
    } else {
      var h := hs[n];
      ItemRecordsSound(t, EntryTime(h, parse).value, h.items, x);
      var k :| 0 <= k < |h.items| && IsStatusChange(h.items[k]) && x == MakeRecord(t, EntryTime(h, parse).value, h.items[k]);
      assert hs[n].items[k] == h.items[k];
    }
  }

  /** The records of one entry are among the records of the whole history. */
  lemma {:induction false} EntryRecordsIncluded(t: Ticket, hs: seq<HistoryEntry>, cutoff: int, parse: Parser, j: nat, x: TransitionRecord)
    requires j < |hs| && x in EntryRecords(t, hs[j], cutoff, parse)
    ensures x in HistoryRecords(t, hs, cutoff, parse)
  {
    var n := |hs| - 1;
    var init := hs[..n];
    assert HistoryRecords(t, hs, cutoff, parse) == HistoryRecords(t, init, cutoff, parse) + EntryRecords(t, hs[n], cutoff, parse);
    if j < n {
      assert init[j] == hs[j];
      EntryRecordsIncluded(t, init, cutoff, parse, j, x);
    }
  }

  lemma HistoryRecordsComplete(t: Ticket, hs: seq<HistoryEntry>, cutoff: int, parse: Parser, j: nat, k: nat)
    requires j < |hs| && k < |hs[j].items| && InWindow(hs[j], cutoff, parse) && IsStatusChange(hs[j].items[k])
    ensures MakeRecord(t, EntryTime(hs[j], parse).value, hs[j].items[k]) in HistoryRecords(t, hs, cutoff, parse)
  {
    var h := hs[j];
    ItemRecordsComplete(t, EntryTime(h, parse).value, h.items, k);
    EntryRecordsIncluded(t, hs, cutoff, parse, j, MakeRecord(t, EntryTime(h, parse).value, h.items[k]));
  }

  /** Every transition record is built from a status change of an entry
      dated at or after the cutoff. */
  lemma {:induction false} RecordsSound(issues: seq<Ticket>, cutoff: int, parse: Parser, x: TransitionRecord)
    requires x in Records(issues, cutoff, parse)
    ensures exists i, j, k :: Qualifies(issues, cutoff, parse, i, j, k) && x == RecordAt(issues, cutoff, parse, i, j, k)
  {
    var n := |issues| - 1;
    if x in Records(issues[..n], cutoff, parse) {
      RecordsSound(issues[..n], cutoff, parse, x);
      var i, j, k :| Qualifies(issues[..n], cutoff, parse, i, j, k) && x == RecordAt(issues[..n], cutoff, parse, i, j, k);
      assert issues[..n][i] == issues[i];
      assert Qualifies(issues, cutoff, parse, i, j, k);
    } else {
      var t := issues[n];
      HistoryRecordsSound(t, t.histories, cutoff, parse, x);
      var j, k :| 0 <= j < |t.histories| && 0 <= k < |t.histories[j].items| && InWindow(t.histories[j], cutoff, parse)
        && IsStatusChange(t.histories[j].items[k]) && x == MakeRecord(t, EntryTime(t.histories[j], parse).value, t.histories[j].items[k]);
      assert Qualifies(issues, cutoff, parse, n, j, k);
    }
  }

  /** The records of one ticket are among the records of all tickets. */
  lemma {:induction false} TicketRecordsIncluded(issues: seq<Ticket>, cutoff: int, parse: Parser, i: nat, x: TransitionRecord)
    requires i < |issues| && x in TicketRecords(issues[i], cutoff, parse)
    ensures x in Records(issues, cutoff, parse)
  {
    var n := |issues| - 1;
    var init := issues[..n];
    assert Records(issues, cutoff, parse) == Records(init, cutoff, parse) + TicketRecords(issues[n], cutoff, parse);
    if i < n {
      assert init[i] == issues[i];
      TicketRecordsIncluded(init, cutoff, parse, i, x);
    }
  }

  /** Every status change of an entry dated at or after the cutoff yields its record. */
  lemma RecordsComplete(issues: seq<Ticket>, cutoff: int, parse: Parser, i: int, j: int, k: int)
    requires Qualifies(issues, cutoff, parse, i, j, k)
    ensures RecordAt(issues, cutoff, parse, i, j, k) in Records(issues, cutoff, parse)
  {
    var t := issues[i];
    HistoryRecordsComplete(t, t.histories, cutoff, parse, j, k);
    TicketRecordsIncluded(issues, cutoff, parse, i, RecordAt(issues, cutoff, parse, i, j, k));
  }

  /** A record carries its ticket's fields, with the defaults for missing ones. */
  lemma RecordCarriesTicket(t: Ticket, cutoff: int, parse: Parser, x: TransitionRecord)
    requires x in TicketRecords(t, cutoff, parse)
    ensures x.key == t.key && x.summary == t.summary && x.issueType == t.issueType
    ensures x.assignee == (if t.assignee.None? then "Unassigned" else t.assignee.value)
    ensures x.priority == (if t.priority.None? then "None" else t.priority.value)
    ensures x.description == match t.description
      case Absent => Some("")
      case Null => None
      case Text(d) => Some(d)
  {
    HistoryRecordsSound(t, t.histories, cutoff, parse, x);
  }

  /** A ticket whose history has no entry in the window yields no records. */
  lemma {:induction false} NoEntryInWindow(t: Ticket, hs: seq<HistoryEntry>, cutoff: int, parse: Parser)
    requires forall j :: 0 <= j < |hs| ==> !InWindow(hs[j], cutoff, parse)
    ensures HistoryRecords(t, hs, cutoff, parse) == []
  {
    if hs != [] {
      var n := |hs| - 1;
      assert forall j :: 0 <= j < n ==> hs[..n][j] == hs[j];
      NoEntryInWindow(t, hs[..n], cutoff, parse);
    }
  }

  /** Items that do not change the status yield no records. */
  lemma {:induction false} NoStatusChange(t: Ticket, at: int, items: seq<FieldChange>)
    requires forall k :: 0 <= k < |items| ==> !IsStatusChange(items[k])
    ensures ItemRecords(t, at, items) == []
  {
    if items != [] {
      var n := |items| - 1;
      assert forall k :: 0 <= k < n ==> items[..n][k] == items[k];
      NoStatusChange(t, at, items[..n]);
    }
  }

  /** One entry with two status items yields two records, in item order. */
  lemma TwoStatusItemsTwoRecords(t: Ticket, at: int, a: FieldChange, b: FieldChange)
    requires IsStatusChange(a) && IsStatusChange(b)
    ensures ItemRecords(t, at, [a, b]) == [MakeRecord(t, at, a), MakeRecord(t, at, b)]
  {
    assert [a][..0] == [];
    assert ItemRecords(t, at, [a]) == [MakeRecord(t, at, a)];
    assert [a, b][..1] == [a];
  }

  // ---------------------------------------------------------------------
  // The five transition buckets

  function Bucket(tally: Tally, c: Category): seq<TransitionRecord>
  {
    match c
    case Started => tally.movedToInProgress
    case InReview => tally.movedToReview
    case Closed => tally.movedToClosed
    case Done => tally.movedToDone
    case Resolved => tally.movedToResolved
  }

  lemma {:induction false} PickMembership(recs: seq<TransitionRecord>, c: Option<Category>, x: TransitionRecord)
    ensures x in Pick(recs, c) <==> x in recs && Classify(x.toStatus) == c
  {
    if recs != [] {
      var n := |recs| - 1;
      PickMembership(recs[..n], c, x);
      assert recs == recs[..n] + [recs[n]];
    }
  }

  /** Every record lands in exactly the bucket its destination status
      classifies into; one whose status matches nothing lands nowhere. */
  lemma BucketMembership(recs: seq<TransitionRecord>, c: Category, x: TransitionRecord)
    ensures x in Bucket(Distribute(recs), c) <==> x in recs && Classify(x.toStatus) == Some(c)
  {
    DistributePicks(recs);
    PickMembership(recs, Some(c), x);
  }

  /** No record is in two buckets. */
  lemma BucketsDisjoint(recs: seq<TransitionRecord>, c1: Category, c2: Category, x: TransitionRecord)
    requires x in Bucket(Distribute(recs), c1) && x in Bucket(Distribute(recs), c2)
    ensures c1 == c2
  {
    BucketMembership(recs, c1, x);
    BucketMembership(recs, c2, x);
  }

  /** The five buckets and the dropped records split the records exactly. */
  lemma {:induction false} PickPartition(recs: seq<TransitionRecord>)
    ensures |Pick(recs, Some(Started))| + |Pick(recs, Some(InReview))| + |Pick(recs, Some(Closed))|
          + |Pick(recs, Some(Done))| + |Pick(recs, Some(Resolved))| + |Pick(recs, None)| == |recs|
  {
    if recs != [] {
      PickPartition(recs[..|recs| - 1]);
    }
  }

  // ---------------------------------------------------------------------
  // Counting: one record per qualifying status item. An item is named by the
  // triple (ticket, history entry, item) of its positions; the sets below fix
  // the leading positions and range over the rest.

  /** The status items of `items`, as triples under ticket `i`, entry `j`. */
  ghost function ItemTriples(items: seq<FieldChange>, i: int, j: int): set<(int, int, int)>
  {
    set k | 0 <= k < |items| && IsStatusChange(items[k]) :: (i, j, k)
  }

  /** The status items of entry `h`, counted only when it is in the window. */
  ghost function EntryTriples(h: HistoryEntry, cutoff: int, parse: Parser, i: int, j: int): set<(int, int, int)>
  {
    if InWindow(h, cutoff, parse) then ItemTriples(h.items, i, j) else {}
  }

  /** The qualifying status items of the entries `hs` of ticket `i`. */
  ghost function HistoryTriples(hs: seq<HistoryEntry>, cutoff: int, parse: Parser, i: int): set<(int, int, int)>
  {
    set j, k | 0 <= j < |hs| && 0 <= k < |hs[j].items|
      && InWindow(hs[j], cutoff, parse) && IsStatusChange(hs[j].items[k]) :: (i, j, k)
  }

  /** Every qualifying status item of every ticket. */
  ghost function QualifyingTriples(issues: seq<Ticket>, cutoff: int, parse: Parser): set<(int, int, int)>
  {
    set i, j, k | 0 <= i < |issues| && 0 <= j < |issues[i].histories| && 0 <= k < |issues[i].histories[j].items|
      && Qualifies(issues, cutoff, parse, i, j, k) :: (i, j, k)
  }

  lemma ItemTriplesSnoc(items: seq<FieldChange>, i: int, j: int)
    requires items != []
    ensures var n := |items| - 1;
      ItemTriples(items, i, j)
      == ItemTriples(items[..n], i, j) + (if IsStatusChange(items[n]) then {(i, j, n)} else {})
  {
    var n := |items| - 1;
    assert forall k :: 0 <= k < n ==> items[..n][k] == items[k];
  }

  /** A run of items yields one record per status item in it. */
  lemma {:induction false} ItemCount(t: Ticket, at: int, items: seq<FieldChange>, i: int, j: int)
    ensures |ItemRecords(t, at, items)| == |ItemTriples(items, i, j)|
  {
    if items == [] {
      assert ItemTriples(items, i, j) == {};
    } else {
      var n := |items| - 1;
      ItemCount(t, at, items[..n], i, j);
      ItemTriplesSnoc(items, i, j);
      assert (i, j, n) !in ItemTriples(items[..n], i, j);
    }
  }

  lemma HistoryTriplesSnoc(hs: seq<HistoryEntry>, cutoff: int, parse: Parser, i: int)
    requires hs != []
    ensures var n := |hs| - 1;
      HistoryTriples(hs, cutoff, parse, i)
      == HistoryTriples(hs[..n], cutoff, parse, i) + EntryTriples(hs[n], cutoff, parse, i, n)
  {
    var n := |hs| - 1;
    assert forall j :: 0 <= j < n ==> hs[..n][j] == hs[j];
  }

  /** Whole sets that differ in the second position do not meet. */
  lemma EntryTriplesApart(hs: seq<HistoryEntry>, h: HistoryEntry, cutoff: int, parse: Parser, i: int)
    ensures HistoryTriples(hs, cutoff, parse, i) * EntryTriples(h, cutoff, parse, i, |hs|) == {}
  {
    forall x | x in EntryTriples(h, cutoff, parse, i, |hs|)
      ensures x !in HistoryTriples(hs, cutoff, parse, i)
    {
      assert x.1 == |hs|;
    }
  }

  /** The entries of a ticket yield one record per in-window status item. */
  lemma {:induction false} HistoryCount(t: Ticket, hs: seq<HistoryEntry>, cutoff: int, parse: Parser, i: int)
    ensures |HistoryRecords(t, hs, cutoff, parse)| == |HistoryTriples(hs, cutoff, parse, i)|
  {
    if hs == [] {
      assert HistoryTriples(hs, cutoff, parse, i) == {};
    } else {
      var n := |hs| - 1;
      HistoryCount(t, hs[..n], cutoff, parse, i);
      HistoryTriplesSnoc(hs, cutoff, parse, i);
      EntryTriplesApart(hs[..n], hs[n], cutoff, parse, i);
      if InWindow(hs[n], cutoff, parse) {
        ItemCount(t, EntryTime(hs[n], parse).value, hs[n].items, i, n);
      }
    }
  }

  lemma QualifyingTriplesSnoc(issues: seq<Ticket>, cutoff: int, parse: Parser)
    requires issues != []
    ensures var n := |issues| - 1;
      QualifyingTriples(issues, cutoff, parse)
      == QualifyingTriples(issues[..n], cutoff, parse) + HistoryTriples(issues[n].histories, cutoff, parse, n)
  {
    var n := |issues| - 1;
    assert forall i :: 0 <= i < n ==> issues[..n][i] == issues[i];
  }

  lemma TicketTriplesApart(issues: seq<Ticket>, hs: seq<HistoryEntry>, cutoff: int, parse: Parser)
    ensures QualifyingTriples(issues, cutoff, parse) * HistoryTriples(hs, cutoff, parse, |issues|) == {}
  {
    forall x | x in HistoryTriples(hs, cutoff, parse, |issues|)
      ensures x !in QualifyingTriples(issues, cutoff, parse)
    {
      assert x.0 == |issues|;
    }
  }

  /** There are exactly as many transition records as qualifying status items:
      one per item whose field is "status", in an entry dated at or after the
      cutoff. */
  lemma {:induction false} RecordsCount(issues: seq<Ticket>, cutoff: int, parse: Parser)
    ensures |Records(issues, cutoff, parse)| == |QualifyingTriples(issues, cutoff, parse)|
  {
    if issues == [] {
      assert QualifyingTriples(issues, cutoff, parse) == {};
    } else {
      var n := |issues| - 1;
      RecordsCount(issues[..n], cutoff, parse);
      QualifyingTriplesSnoc(issues, cutoff, parse);
      TicketTriplesApart(issues[..n], issues[n].histories, cutoff, parse);
      HistoryCount(issues[n], issues[n].histories, cutoff, parse, n);
    }
  }

  /** The analysed buckets: a record is in bucket `c` exactly when it is
      built from an in-window status change whose destination classifies as `c`;
      together the buckets hold at most one entry per such change. */
  lemma AnalyzedBuckets(issues: seq<Ticket>, cutoff: int, parse: Parser, c: Category, x: TransitionRecord)
    requires Analyze(issues, cutoff, parse).Ok?
    ensures var t := Analyze(issues, cutoff, parse).buckets.transitions;
      (x in Bucket(t, c) <==>
        Classify(x.toStatus) == Some(c)
        && exists i, j, k :: Qualifies(issues, cutoff, parse, i, j, k) && x == RecordAt(issues, cutoff, parse, i, j, k))
      && |t.movedToInProgress| + |t.movedToReview| + |t.movedToClosed| + |t.movedToDone| + |t.movedToResolved|
         <= |QualifyingTriples(issues, cutoff, parse)|
  {
    var recs := Records(issues, cutoff, parse);
    BucketMembership(recs, c, x);
    if x in recs {
      RecordsSound(issues, cutoff, parse, x);
    }
    if exists i, j, k :: Qualifies(issues, cutoff, parse, i, j, k) && x == RecordAt(issues, cutoff, parse, i, j, k) {
      var i, j, k :| Qualifies(issues, cutoff, parse, i, j, k) && x == RecordAt(issues, cutoff, parse, i, j, k);
      RecordsComplete(issues, cutoff, parse, i, j, k);
    }
    DistributePicks(recs);
    PickPartition(recs);
    RecordsCount(issues, cutoff, parse);
  }

  // ---------------------------------------------------------------------
  // Scenarios

  /** The records of a single ticket with a single history entry. */
  lemma OneTicketOneEntry(t: Ticket, cutoff: int, parse: Parser)
    requires |t.histories| == 1
    ensures Records([t], cutoff, parse) == EntryRecords(t, t.histories[0], cutoff, parse)
    ensures TimestampsParse([t], parse) == EntryTime(t.histories[0], parse).Some?
  {
    assert [t][..0] == [] && t.histories[..0] == [];
    assert HistoryRecords(t, t.histories[..0], cutoff, parse) == [];
    var e := EntryRecords(t, t.histories[0], cutoff, parse);
    assert TicketRecords(t, cutoff, parse) == [] + e == e;
    assert Records([t], cutoff, parse) == [] + e;
  }

  /** An entry dated exactly at the cutoff counts. */
  lemma CutoffIsInclusive(t: Ticket, cutoff: int, parse: Parser, item: FieldChange)
    requires |t.histories| == 1 && t.histories[0].items == [item]
    requires EntryTime(t.histories[0], parse) == Some(cutoff)
    requires item.field == Some("status") && item.toString == Some("Done")
    ensures Analyze([t], cutoff, parse).Ok?
    ensures Analyze([t], cutoff, parse).buckets.transitions.movedToDone == [MakeRecord(t, cutoff, item)]
  {
    TrackerSpellings();
    DoneIsDone("Done");
    OneTicketOneEntry(t, cutoff, parse);
    assert [item][..0] == [];
    var rec := MakeRecord(t, cutoff, item);
    assert ItemRecords(t, cutoff, [item][..0]) == [];
    assert ItemRecords(t, cutoff, [item]) == [] + [rec];
    assert Records([t], cutoff, parse) == [rec];
    DistributeSnoc([], rec);
    assert [] + [rec] == [rec];
  }

  /** An entry dated one tick before the cutoff does not. */
  lemma BeforeCutoffIsIgnored(t: Ticket, cutoff: int, parse: Parser)
    requires |t.histories| == 1 && EntryTime(t.histories[0], parse) == Some(cutoff - 1)
    ensures Analyze([t], cutoff, parse).Ok?
    ensures Analyze([t], cutoff, parse).buckets.transitions == Tally([], [], [], [], [])
  {
    OneTicketOneEntry(t, cutoff, parse);
  }

  /** A Blocker-priority ticket in progress is blocked and also started. */
  lemma BlockerInProgressIsBoth(t: Ticket, cutoff: int, parse: Parser, item: FieldChange)
    requires t.priority == Some("Blocker")
    requires |t.histories| == 1 && t.histories[0].items == [item]
    requires EntryTime(t.histories[0], parse) == Some(cutoff)
    requires item.field == Some("status") && item.toString == Some("In Progress")
    ensures Analyze([t], cutoff, parse).Ok?
    ensures Analyze([t], cutoff, parse).buckets.blockedIssues == [BlockedRecord(t)]
    ensures Analyze([t], cutoff, parse).buckets.transitions.movedToInProgress == [MakeRecord(t, cutoff, item)]
  {
    TrackerSpellings();
    InProgressIsStarted("In Progress");
    OneTicketOneEntry(t, cutoff, parse);
    assert [item][..0] == [];
    var rec := MakeRecord(t, cutoff, item);
    assert ItemRecords(t, cutoff, [item][..0]) == [];
    assert ItemRecords(t, cutoff, [item]) == [] + [rec];
    assert Records([t], cutoff, parse) == [rec];
    DistributeSnoc([], rec);
    assert [] + [rec] == [rec];
    assert PriorityName(t) == "Blocker";
    assert IsBlocked(t);
    assert BlockedOf([t][..0]) == [];
    assert BlockedOf([t]) == [] + [BlockedRecord(t)];
  }
}
