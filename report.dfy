/** The data-preparation part of `generate_report_with_gemini`: the empty-data
    short-circuit, and `report_data`. The prompt quotes four of its lists
    (started, completed, review, blocked); the fifth, `all_context`, is
    computed but never read. */
module Report {
  import opened Jira
  import opened Classification
  import opened Transitions
  import opened TransitionFacts

  const NoDataMessage: string := "No Jira data available to generate a report."
  const FailurePrefix: string := "Failed to generate report: An unexpected error - "

  /** At most this many `all_issues` entries go into `all_context`. */
  const ContextLimit: nat := 20

  /** `report_data`. The prompt is built from its first four lists only;
      `allContext` is computed and then left unused. */
  datatype ReportData = ReportData(
    startedItems: seq<TransitionRecord>,
    completedItems: seq<TransitionRecord>,
    reviewItems: seq<TransitionRecord>,
    blockedItems: seq<BlockedSummary>,
    allContext: seq<IssueSummary>)

  /** Either the short-circuit, or the prepared data the backend is called after. */
  datatype Prepared = NoData | Prompt(data: ReportData)

  /** What the backend call did: returned text, or raised with a message. */
  datatype BackendReply = Generated(text: string) | Raised(message: string)

  function Min(a: nat, b: nat): nat
  {
    if a <= b then a else b
  }

  /** The short-circuit happens exactly when `all_issues` is empty. Otherwise
      started, review and blocked items are their buckets; a record is
      completed exactly when it is closed, done or resolved; and the context
      is the first `min(20, |all_issues|)` summaries. */
  function Prepare(b: Buckets): (p: Prepared)
    ensures p.NoData? <==> b.allIssues == []
    ensures p.Prompt? ==>
      var t := b.transitions;
      && p.data.startedItems == t.movedToInProgress
      && p.data.reviewItems == t.movedToReview
      && p.data.blockedItems == b.blockedIssues
      && (forall x :: x in p.data.completedItems <==> x in t.movedToClosed || x in t.movedToDone || x in t.movedToResolved)
    ensures p.Prompt? ==>
      && |p.data.allContext| == Min(ContextLimit, |b.allIssues|)
      && (forall i :: 0 <= i < |p.data.allContext| ==> p.data.allContext[i] == b.allIssues[i])
      && (|b.allIssues| <= ContextLimit ==> p.data.allContext == b.allIssues)
  {
    if b.allIssues == [] then NoData
    else
      var t := b.transitions;
      Prompt(ReportData(
        t.movedToInProgress,
        t.movedToClosed + t.movedToDone + t.movedToResolved,
        t.movedToReview,
        b.blockedIssues,
        b.allIssues[..Min(ContextLimit, |b.allIssues|)]))
  }

  /** The text `generate_report_with_gemini` returns: the no-data message when
      there are no tickets, whatever the backend would say; otherwise the
      backend's text verbatim, or the placeholder carrying the error message. */
  function GenerateReport(b: Buckets, reply: BackendReply): (r: string)
    ensures b.allIssues == [] ==> r == NoDataMessage
    ensures b.allIssues != [] && reply.Generated? ==> r == reply.text
    ensures b.allIssues != [] && reply.Raised? ==> r == FailurePrefix + reply.message
  {
    match Prepare(b)
    case NoData => NoDataMessage
    case Prompt(_) =>
      match reply
      case Generated(text) => text
      case Raised(message) => FailurePrefix + message
  }

  /** With no tickets the literal message comes back whatever the backend
      would have said: the backend is never consulted. */
  lemma EmptyDataShortCircuits(b: Buckets, r1: BackendReply, r2: BackendReply)
    requires b.allIssues == []
    ensures GenerateReport(b, r1) == GenerateReport(b, r2) == NoDataMessage
  {
  }

  /** The completed items are the closed, then the done, then the resolved
      records, each bucket kept in its own order. */
  lemma CompletedItemsLayout(b: Buckets)
    requires b.allIssues != []
    ensures var c := Prepare(b).data.completedItems;
      var t := b.transitions;
      var n1 := |t.movedToClosed|;
      var n2 := n1 + |t.movedToDone|;
      && |c| == n2 + |t.movedToResolved|
      && c[..n1] == t.movedToClosed && c[n1..n2] == t.movedToDone && c[n2..] == t.movedToResolved
  {
    var t := b.transitions;
    var c := t.movedToClosed + t.movedToDone + t.movedToResolved;
    var n1 := |t.movedToClosed|;
    var n2 := n1 + |t.movedToDone|;
    assert c[..n1] == t.movedToClosed;
    assert c[n1..n2] == t.movedToDone;
    assert c[n2..] == t.movedToResolved;
  }

  /** A record is in the closed, done or resolved bucket exactly when it is
      one of the records and its destination classifies as one of those three. */
  lemma CompletedOfDistribute(recs: seq<TransitionRecord>, x: TransitionRecord)
    ensures var t := Distribute(recs);
      (x in t.movedToClosed + t.movedToDone + t.movedToResolved <==>
        x in recs && Classify(x.toStatus) in {Some(Closed), Some(Done), Some(Resolved)})
  {
    BucketMembership(recs, Closed, x);
    BucketMembership(recs, Done, x);
    BucketMembership(recs, Resolved, x);
  }

  /** Over an analysed ticket list: the short-circuit happens exactly when the
      list is empty, and a record is completed exactly when it is an in-window
      status change whose destination classifies as closed, done or resolved. */
  lemma PreparedFromAnalysis(issues: seq<Ticket>, cutoff: int, parse: Parser, x: TransitionRecord)
    requires Analyze(issues, cutoff, parse).Ok?
    ensures var b := Analyze(issues, cutoff, parse).buckets;
      && (Prepare(b).NoData? <==> issues == [])
      && (issues != [] ==>
           (x in Prepare(b).data.completedItems <==>
              x in Records(issues, cutoff, parse)
              && Classify(x.toStatus) in {Some(Closed), Some(Done), Some(Resolved)}))
  {
    var recs := Records(issues, cutoff, parse);
    var b := Analyze(issues, cutoff, parse).buckets;
    assert b == Buckets(Distribute(recs), BlockedOf(issues), Summaries(issues));
    CompletedOfDistribute(recs, x);
  }
}
