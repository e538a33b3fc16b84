/** Which bucket a status change lands in, decided by its destination status. */
module Classification {
  import opened Text
  import opened Jira

  /** The five transition buckets, in the order the script tests them. */
  datatype Category = Started | InReview | Closed | Done | Resolved

  /** The second test of each of the first two branches can never decide
      anything: its phrase contains the first test's word. */
  lemma RedundantTests(s: string)
    ensures Contains(s, "in progress") ==> Contains(s, "progress")
    ensures Contains(s, "code review") ==> Contains(s, "review")
  {
    if Contains(s, "in progress") {
      assert OccursAt("in progress", "progress", 3);
      ContainsTransitive(s, "in progress", "progress");
    }
    if Contains(s, "code review") {
      assert OccursAt("code review", "review", 5);
      ContainsTransitive(s, "code review", "review");
    }
  }

  /** The bucket for a change to `toStatus`: first-match-wins substring tests
      on its lower-cased text, `None` when no test matches. */
  function Classify(toStatus: string): (c: Option<Category>)
    ensures c == Some(Started) <==> Contains(Lower(toStatus), "progress")
    ensures c == Some(InReview) <==>
      !Contains(Lower(toStatus), "progress") && Contains(Lower(toStatus), "review")
    ensures c == Some(Closed) <==>
      !Contains(Lower(toStatus), "progress") && !Contains(Lower(toStatus), "review")
      && Contains(Lower(toStatus), "closed")
    ensures c == Some(Done) <==>
      !Contains(Lower(toStatus), "progress") && !Contains(Lower(toStatus), "review")
      && !Contains(Lower(toStatus), "closed") && Contains(Lower(toStatus), "done")
    ensures c == Some(Resolved) <==>
      !Contains(Lower(toStatus), "progress") && !Contains(Lower(toStatus), "review")
      && !Contains(Lower(toStatus), "closed") && !Contains(Lower(toStatus), "done")
      && Contains(Lower(toStatus), "resolved")
    ensures c == None <==>
      !Contains(Lower(toStatus), "progress") && !Contains(Lower(toStatus), "review")
      && !Contains(Lower(toStatus), "closed") && !Contains(Lower(toStatus), "done")
      && !Contains(Lower(toStatus), "resolved")
  {
    var s := Lower(toStatus);
    RedundantTests(s);
    if Contains(s, "in progress") || Contains(s, "progress") then Some(Started)
    else if Contains(s, "review") || Contains(s, "code review") then Some(InReview)
    else if Contains(s, "closed") then Some(Closed)
    else if Contains(s, "done") then Some(Done)
    else if Contains(s, "resolved") then Some(Resolved)
    else None
  }

  /** Which of the five words occur in "code review". */
  lemma CodeReviewWords()
    ensures !Contains("code review", "progress") && Contains("code review", "review")
  {
    MissingChar("code review", "progress", 0);
    assert "code review"[5..11] == "review";
    assert OccursAt("code review", "review", 5);
  }

  /** "Code Review", in any letter case, goes to review, although "review" is
      tested after "progress". */
  lemma CodeReviewIsReview(status: string)
    requires Lower(status) == "code review"
    ensures Classify(status) == Some(InReview)
  {
    CodeReviewWords();
  }

  /** Which of the five words occur in "review done". */
  lemma ReviewDoneWords()
    ensures !Contains("review done", "progress") && Contains("review done", "review")
  {
    MissingChar("review done", "progress", 0);
    assert OccursAt("review done", "review", 0);
  }

  /** A status naming both review and done goes to review: the earlier test wins. */
  lemma ReviewBeatsDone(status: string)
    requires Lower(status) == "review done"
    ensures Classify(status) == Some(InReview)
  {
    ReviewDoneWords();
  }

  lemma InProgressIsStarted(status: string)
    requires Lower(status) == "in progress"
    ensures Classify(status) == Some(Started)
  {
    assert OccursAt("in progress", "progress", 3);
  }

  lemma DoneIsDone(status: string)
    requires Lower(status) == "done"
    ensures Classify(status) == Some(Done)
  {
    MissingChar("done", "progress", 0);
    MissingChar("done", "review", 0);
    MissingChar("done", "closed", 0);
    assert OccursAt("done", "done", 0);
  }

  /** A status none of the five words occurs in is dropped. */
  lemma OpenIsDropped(status: string)
    requires Lower(status) == "open"
    ensures Classify(status) == None
  {
    MissingChar("open", "progress", 1);
    MissingChar("open", "review", 0);
    MissingChar("open", "closed", 0);
    MissingChar("open", "done", 0);
    MissingChar("open", "resolved", 0);
  }

  /** The tracker's own spellings lower to the texts above. */
  lemma TrackerSpellings()
    ensures Lower("Code Review") == "code review" && Lower("Review Done") == "review done"
    ensures Lower("In Progress") == "in progress" && Lower("Done") == "done" && Lower("Open") == "open"
  {
  }
}
