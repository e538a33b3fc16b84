/** The script's top level: fetch, classify, compose, send. */
module Pipeline {
  import opened Jira
  import opened Transitions
  import opened Report
  import opened Email

  /** How a run ends. The classifier's parse failure is not caught, so the
      run stops there; a fetch failure and an empty fetch both abort. */
  datatype RunOutcome = FetchAborted | ClassifierRaised | Reported(report: string, sendResult: bool)

  /** A run, given what the fetch returned (`None` for a failed fetch), the
      backend's reply and each transport profile's outcome. */
  function Run(fetched: Option<seq<Ticket>>, cutoff: int, parse: Parser, reply: BackendReply,
               settings: EmailSettings, succeeds: seq<bool>): (o: RunOutcome)
    ensures o.FetchAborted? <==> fetched.None? || fetched.value == []
    ensures o.ClassifierRaised? <==>
      fetched.Some? && fetched.value != [] && Analyze(fetched.value, cutoff, parse).TimestampUnparsable?
    ensures o.Reported? ==>
      && (reply.Generated? ==> o.report == reply.text)
      && (reply.Raised? ==> o.report == FailurePrefix + reply.message)
      && (o.sendResult <==> SendSucceeds(settings, succeeds))
  {
    if fetched.None? || fetched.value == [] then FetchAborted
    else match Analyze(fetched.value, cutoff, parse)
      case TimestampUnparsable => ClassifierRaised
      case Ok(b) => Reported(GenerateReport(b, reply), SendSucceeds(settings, succeeds))
  }

  /** The `__main__` block, calling the classifier and the sender. */
  method RunWeeklyReport(fetched: Option<seq<Ticket>>, cutoff: int, parse: Parser, reply: BackendReply,
                         settings: EmailSettings, succeeds: seq<bool>) returns (outcome: RunOutcome)
    requires |succeeds| == |FallbackConfigs|
    ensures outcome == Run(fetched, cutoff, parse, reply, settings, succeeds)
  {
    if fetched.None? || fetched.value == [] {
      return FetchAborted;
    }
    var transitions := AnalyzeStatusTransitions(fetched.value, cutoff, parse);
    if transitions.TimestampUnparsable? {
      return ClassifierRaised;
    }
    var report := GenerateReport(transitions.buckets, reply);
    var sent, _ := SendReportEmail(settings, succeeds);
    outcome := Reported(report, sent);
  }

  /** An empty ticket list is treated exactly like a failed fetch. */
  lemma EmptyFetchAborts(cutoff: int, parse: Parser, reply: BackendReply, settings: EmailSettings, succeeds: seq<bool>)
    ensures Run(Some([]), cutoff, parse, reply, settings, succeeds)
         == Run(None, cutoff, parse, reply, settings, succeeds)
         == FetchAborted
  {
  }

  /** A failed backend call or a failed send does not stop the run. */
  lemma FailuresDoNotAbort(issues: seq<Ticket>, cutoff: int, parse: Parser, message: string,
                           settings: EmailSettings, succeeds: seq<bool>)
    requires issues != [] && Analyze(issues, cutoff, parse).Ok?
    requires forall k :: 0 <= k < |succeeds| ==> !succeeds[k]
    ensures Run(Some(issues), cutoff, parse, Raised(message), settings, succeeds)
         == Reported(FailurePrefix + message, false)
  {
    SendSucceedsIffSomeAttempt(settings, succeeds);
  }
}
