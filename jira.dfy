/** The issue-tracker records the report script reads, and the query string it
    sends to the tracker's search endpoint. */
module Jira {
  import opened Text

  datatype Option<T> = None | Some(value: T)
  {
    function GetOr(default: T): T
    {
      match this
      case Some(v) => v
      case None => default
    }
  }

  /** One item of a changelog history entry. `None` stands for a key that is
      absent from the item; `item.get(...)` then yields its default. */
  datatype FieldChange = FieldChange(field: Option<string>, fromString: Option<string>, toString: Option<string>)

  /** One changelog history entry: its raw `created` text and its items. */
  datatype HistoryEntry = HistoryEntry(created: string, items: seq<FieldChange>)

  /** A text field of the tracker's JSON reply: the key may be missing, present
      with `null`, or present with text. */
  datatype JsonText = Absent | Null | Text(text: string)

  /** A ticket as returned with its changelog expanded. An assignee or
      priority that is JSON `null` (or an empty object) is `None`; the keys
      themselves are always present. An absent changelog is an empty
      `histories`. */
  datatype Ticket = Ticket(
    key: string,
    summary: string,
    status: string,
    assignee: Option<string>,
    priority: Option<string>,
    issueType: string,
    description: JsonText,
    histories: seq<HistoryEntry>)

  const Project: string := "OCM"
  const Components: seq<string> := ["Rosa", "rosa-team"]

  function Quote(c: string): string
  {
    "\"" + c + "\""
  }

  /** `", ".join([f'"{c}"' for c in cs])`. */
  function JoinQuoted(cs: seq<string>): (r: string)
    ensures |cs| == 0 <==> r == ""
    ensures |cs| > 0 ==> r[0] == '"' && r[|r| - 1] == '"'
  {
    if |cs| == 0 then ""
    else if |cs| == 1 then Quote(cs[0])
    else Quote(cs[0]) + ", " + JoinQuoted(cs[1..])
  }

  // The fixed text around the three values of the search filter.
  const QueryHead: string := "project = "
  const QueryComponents: string := " AND component in ("
  const QueryUpdated: string := ") AND updated >= "
  const QueryOrder: string := " ORDER BY updated DESC"

  /** The `updated >= "..." ORDER BY ...` tail of the search filter. */
  function DateClause(startDate: string): string
  {
    QueryUpdated + Quote(startDate) + QueryOrder
  }

  /** The filter from the component list on. */
  function ComponentClause(components: seq<string>, startDate: string): string
  {
    QueryComponents + JoinQuoted(components) + DateClause(startDate)
  }

  /** The search filter. It names the project, every component and the first
      day of the window, each quoted. */
  function JqlQuery(project: string, components: seq<string>, startDate: string): (q: string)
    ensures Contains(q, Quote(project))
    ensures Contains(q, Quote(startDate))
    ensures forall i :: 0 <= i < |components| ==> Contains(q, Quote(components[i]))
  {
    var rest := ComponentClause(components, startDate);
    var q := QueryHead + Quote(project) + rest;
    ContainsMiddle(q, QueryHead, Quote(project), rest);
    ContainsMiddle(q, QueryHead + Quote(project), rest, "");
    ContainsMiddle(rest, QueryComponents + JoinQuoted(components), DateClause(startDate), "");
    ContainsMiddle(DateClause(startDate), QueryUpdated, Quote(startDate), QueryOrder);
    ContainsTransitive(rest, DateClause(startDate), Quote(startDate));
    ContainsTransitive(q, rest, Quote(startDate));
    JoinedInMiddle(QueryComponents, components, DateClause(startDate));
    forall i | 0 <= i < |components|
      ensures Contains(q, Quote(components[i]))
    {
      ContainsTransitive(q, rest, Quote(components[i]));
    }
    q
  }

  // ---------------------------------------------------------------------
  // A reader for the search filter, used to show that the filter loses
  // nothing, for values without a double quote.

  /** Index of the first `"` in `s`, if any. */
  function QuoteIndex(s: string): (r: Option<nat>)
    ensures r.Some? ==> r.value < |s| && s[r.value] == '"' && forall i :: 0 <= i < r.value ==> s[i] != '"'
    ensures r.None? ==> forall i :: 0 <= i < |s| ==> s[i] != '"'
  {
    if s == [] then None
    else if s[0] == '"' then Some(0)
    else match QuoteIndex(s[1..])
      case None => None
      case Some(k) => Some(k + 1)
  }

  /** Reads one quoted name off the front of `s`: the name and what follows
      its closing quote, which is shorter than `s`. */
  function ReadName(s: string): (r: Option<(string, string)>)
    ensures r.Some? ==> |r.value.1| < |s|
  {
    if |s| == 0 || s[0] != '"' then None
    else match QuoteIndex(s[1..])
      case None => None
      case Some(k) => Some((s[1..k + 1], s[k + 2..]))
  }

  /** Reads a run of quoted names separated by ", " off the front of `s`:
      the names, and the text after the last one. */
  function ReadList(s: string): (seq<string>, string)
    decreases |s|
  {
    match ReadName(s)
    case None => ([], s)
    case Some((name, rest)) =>
      if |rest| >= 2 && rest[..2] == ", " then
        var more := ReadList(rest[2..]);
        ([name] + more.0, more.1)
      else ([name], rest)
  }

  /** `s` with `pre` taken off its front, if it starts with `pre`. */
  function DropPrefix(s: string, pre: string): Option<string>
  {
    if |pre| <= |s| && s[..|pre|] == pre then Some(s[|pre|..]) else None
  }

  /** Reads the date clause: the start date, if the text is one. */
  function ReadDateClause(s: string): Option<string>
  {
    match DropPrefix(s, QueryUpdated)
    case None => None
    case Some(r) =>
      match ReadName(r)
      case None => None
      case Some((startDate, after)) => if after == QueryOrder then Some(startDate) else None
  }

  /** Reads the component clause: the components and the start date. */
  function ReadComponentClause(s: string): Option<(seq<string>, string)>
  {
    match DropPrefix(s, QueryComponents)
    case None => None
    case Some(r) =>
      var list := ReadList(r);
      match ReadDateClause(list.1)
      case None => None
      case Some(startDate) => Some((list.0, startDate))
  }

  /** Reads a search filter back into its project, components and start date. */
  function ReadQuery(q: string): Option<(string, seq<string>, string)>
  {
    match DropPrefix(q, QueryHead)
    case None => None
    case Some(r) =>
      match ReadName(r)
      case None => None
      case Some((project, rest)) =>
        match ReadComponentClause(rest)
        case None => None
        case Some((components, startDate)) => Some((project, components, startDate))
  }

  predicate QuoteFree(c: string)
  {
    forall i :: 0 <= i < |c| ==> c[i] != '"'
  }

  lemma QuoteIndexAfter(c: string, tail: string)
    requires QuoteFree(c)
    ensures QuoteIndex(c + "\"" + tail) == Some(|c|)
  {
    var s := c + "\"" + tail;
    assert s[|c|] == '"';
    assert forall i :: 0 <= i < |c| ==> s[i] == c[i];
  }

  lemma ReadNameQuoted(c: string, tail: string)
    requires QuoteFree(c)
    ensures ReadName(Quote(c) + tail) == Some((c, tail))
  {
    var s := Quote(c) + tail;
    assert s[1..] == c + "\"" + tail;
    QuoteIndexAfter(c, tail);
    assert s[|c| + 2..] == tail;
    assert s[1..|c| + 1] == c;
  }

  lemma DropPrefixOf(pre: string, rest: string)
    ensures DropPrefix(pre + rest, pre) == Some(rest)
  {
    assert (pre + rest)[..|pre|] == pre;
    assert (pre + rest)[|pre|..] == rest;
  }

  /** Text that does not start with a quote or a comma ends a list. */
  predicate EndsList(tail: string)
  {
    tail == [] || (tail[0] != '"' && tail[0] != ',')
  }

  lemma ReadListEmpty(tail: string)
    requires EndsList(tail)
    ensures ReadList(tail) == ([], tail)
  {
  }

  lemma ReadListOne(c: string, tail: string)
    requires QuoteFree(c) && EndsList(tail)
    ensures ReadList(Quote(c) + tail) == ([c], tail)
  {
    ReadNameQuoted(c, tail);
    assert |tail| >= 2 ==> tail[..2][0] == tail[0];
  }

  lemma ReadListCons(c: string, s: string)
    requires QuoteFree(c)
    ensures ReadList(Quote(c) + (", " + s)) == ([c] + ReadList(s).0, ReadList(s).1)
  {
    var after := ", " + s;
    ReadNameQuoted(c, after);
    assert after[..2] == ", " && after[2..] == s;
  }

  lemma JoinQuotedCons(cs: seq<string>, tail: string)
    requires |cs| >= 2
    ensures JoinQuoted(cs) + tail == Quote(cs[0]) + (", " + (JoinQuoted(cs[1..]) + tail))
  {
    var q, j := Quote(cs[0]), JoinQuoted(cs[1..]);
    assert JoinQuoted(cs) == q + ", " + j;
    Regroup(q, ", ", j, tail);
  }

  lemma Regroup(a: string, b: string, c: string, d: string)
    ensures a + b + c + d == a + (b + (c + d))
  {
  }

  /** Every name in `cs` is free of quotes. */
  predicate AllQuoteFree(cs: seq<string>)
  {
    forall i :: 0 <= i < |cs| ==> QuoteFree(cs[i])
  }

  lemma AllQuoteFreeTail(cs: seq<string>)
    requires |cs| > 0 && AllQuoteFree(cs)
    ensures QuoteFree(cs[0]) && AllQuoteFree(cs[1..])
  {
    assert forall i :: 0 <= i < |cs| - 1 ==> cs[1..][i] == cs[i + 1];
  }

  lemma ReadListJoinStep(cs: seq<string>, tail: string)
    requires |cs| >= 2 && QuoteFree(cs[0])
    requires ReadList(JoinQuoted(cs[1..]) + tail) == (cs[1..], tail)
    ensures ReadList(JoinQuoted(cs) + tail) == (cs, tail)
  {
    JoinQuotedCons(cs, tail);
    ReadListCons(cs[0], JoinQuoted(cs[1..]) + tail);
    assert [cs[0]] + cs[1..] == cs;
  }

  /** Reading the joined list of quote-free names gives back the names, and
      stops where the list ends. */
  lemma {:induction false} ReadListJoin(cs: seq<string>, tail: string)
    requires AllQuoteFree(cs)
    requires EndsList(tail)
    ensures ReadList(JoinQuoted(cs) + tail) == (cs, tail)
    decreases |cs|
  {
    if cs == [] {
      assert JoinQuoted(cs) + tail == tail;
      ReadListEmpty(tail);
    } else {
      AllQuoteFreeTail(cs);
      if |cs| == 1 {
        assert JoinQuoted(cs) == Quote(cs[0]) && cs == [cs[0]];
        ReadListOne(cs[0], tail);
      } else {
        ReadListJoin(cs[1..], tail);
        ReadListJoinStep(cs, tail);
      }
    }
  }

  /** Joining quote-free component names and reading them back is the identity. */
  lemma JoinQuotedRoundTrip(cs: seq<string>)
    requires AllQuoteFree(cs)
    ensures ReadList(JoinQuoted(cs)) == (cs, "")
  {
    ReadListJoin(cs, "");
    assert JoinQuoted(cs) + "" == JoinQuoted(cs);
  }

  lemma ReadDateClauseOf(startDate: string)
    requires QuoteFree(startDate)
    ensures ReadDateClause(DateClause(startDate)) == Some(startDate)
  {
    assert DateClause(startDate) == QueryUpdated + (Quote(startDate) + QueryOrder);
    DropPrefixOf(QueryUpdated, Quote(startDate) + QueryOrder);
    ReadNameQuoted(startDate, QueryOrder);
  }

  lemma ReadComponentClauseOf(components: seq<string>, startDate: string)
    requires QuoteFree(startDate)
    requires AllQuoteFree(components)
    ensures ReadComponentClause(ComponentClause(components, startDate)) == Some((components, startDate))
  {
    var d := DateClause(startDate);
    assert ComponentClause(components, startDate) == QueryComponents + (JoinQuoted(components) + d);
    DropPrefixOf(QueryComponents, JoinQuoted(components) + d);
    assert d[0] == ')';
    ReadListJoin(components, d);
    ReadDateClauseOf(startDate);
  }

  /** Reading back the search filter built from quote-free values gives the
      project, the components in order, and the start date, each from the
      clause the filter puts it in. */
  lemma JqlQueryRoundTrip(project: string, components: seq<string>, startDate: string)
    requires QuoteFree(project) && QuoteFree(startDate)
    requires AllQuoteFree(components)
    ensures ReadQuery(JqlQuery(project, components, startDate)) == Some((project, components, startDate))
  {
    var rest := ComponentClause(components, startDate);
    assert JqlQuery(project, components, startDate) == QueryHead + Quote(project) + rest;
    ReadComponentClauseOf(components, startDate);
    ReadQueryOf(project, rest);
  }

  lemma ReadQueryOf(project: string, rest: string)
    requires QuoteFree(project) && ReadComponentClause(rest).Some?
    ensures ReadQuery(QueryHead + Quote(project) + rest)
         == Some((project, ReadComponentClause(rest).value.0, ReadComponentClause(rest).value.1))
  {
    assert QueryHead + Quote(project) + rest == QueryHead + (Quote(project) + rest);
    DropPrefixOf(QueryHead, Quote(project) + rest);
    ReadNameQuoted(project, rest);
  }

  /** The filter the script sends, for its configured project and components,
      reads back as exactly those and the start date. */
  lemma ConfiguredQueryRoundTrip(startDate: string)
    requires QuoteFree(startDate)
    ensures ReadQuery(JqlQuery(Project, Components, startDate)) == Some((Project, Components, startDate))
  {
    assert QuoteFree(Components[0]) && QuoteFree(Components[1]);
    JqlQueryRoundTrip(Project, Components, startDate);
  }

  /** Without the quote-free condition the join is not one-to-one: nothing is
      escaped, so a name holding `", "` joins like two names. */
  lemma QuoteInNameCollides()
    ensures JoinQuoted(["a\", \"b"]) == JoinQuoted(["a", "b"])
  {
    assert ["a", "b"][1..] == ["b"];
  }

  /** Every component name appears, quoted, in the joined list. */
  lemma {:induction false} JoinQuotedMentions(cs: seq<string>, i: nat)
    requires i < |cs|
    ensures Contains(JoinQuoted(cs), Quote(cs[i]))
  {
    var s := JoinQuoted(cs);
    if i == 0 {
      assert OccursAt(s, Quote(cs[0]), 0);
    } else {
      JoinQuotedMentions(cs[1..], i - 1);
      var rest := JoinQuoted(cs[1..]);
      var k :| 0 <= k <= |rest| && OccursAt(rest, Quote(cs[i]), k);
      var off := |Quote(cs[0]) + ", "|;
      assert s == Quote(cs[0]) + ", " + rest;
      assert OccursAt(s, rest, off) by {
        assert s[off..off + |rest|] == rest;
      }
      OccursWithin(s, rest, Quote(cs[i]), off, k);
    }
  }

  /** The component list the script sends for its configured components. */
  lemma ConfiguredComponents()
    ensures JoinQuoted(Components) == "\"Rosa\", \"rosa-team\""
  {
    assert Components[1..] == ["rosa-team"];
  }

  lemma ContainsMiddle(q: string, a: string, b: string, c: string)
    requires q == a + b + c
    ensures Contains(q, b)
  {
    assert OccursAt(q, b, |a|) by {
      assert q[|a|..|a| + |b|] == b;
    }
  }

  /** Every quoted component occurs in a text that has the joined list in it. */
  lemma JoinedInMiddle(a: string, cs: seq<string>, c: string)
    ensures forall i :: 0 <= i < |cs| ==> Contains(a + JoinQuoted(cs) + c, Quote(cs[i]))
  {
    var q := a + JoinQuoted(cs) + c;
    forall i | 0 <= i < |cs|
      ensures Contains(q, Quote(cs[i]))
    {
      ContainsMiddle(q, a, JoinQuoted(cs), c);
      JoinQuotedMentions(cs, i);
      ContainsTransitive(q, JoinQuoted(cs), Quote(cs[i]));
    }
  }
}
