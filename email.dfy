/** The sending step of `send_report_email`: the credential check and the
    ordered list of transport configurations tried until one attempt completes. */
module Email {
  import opened Jira

  /** One transport profile: host, port, and whether to log in and use STARTTLS. */
  datatype SmtpConfig = SmtpConfig(server: string, port: nat, useAuth: bool, useTls: bool)

  /** The profiles, in the order they are tried. */
  const FallbackConfigs: seq<SmtpConfig> := [
    SmtpConfig("smtp.corp.redhat.com", 25, false, false),
    SmtpConfig("smtp.corp.redhat.com", 587, false, true),
    SmtpConfig("smtp.corp.redhat.com", 587, true, true),
    SmtpConfig("smtp.gmail.com", 587, true, true)
  ]

  /** The corporate relays come first, the unauthenticated one before the
      others; credentials are only ever sent over TLS; the public server is
      the last resort. */
  lemma FallbackOrder()
    ensures |FallbackConfigs| == 4
    ensures forall k :: 0 <= k < 3 ==> FallbackConfigs[k].server == "smtp.corp.redhat.com"
    ensures FallbackConfigs[3].server == "smtp.gmail.com"
    ensures !FallbackConfigs[0].useAuth && !FallbackConfigs[0].useTls && FallbackConfigs[0].port == 25
    ensures forall k :: 0 <= k < 4 && FallbackConfigs[k].useAuth ==> FallbackConfigs[k].useTls
    ensures forall k :: 0 <= k < 4 && FallbackConfigs[k].useTls ==> FallbackConfigs[k].port == 587
  {
  }

  /** The mail settings from the environment. `portIsInteger` says whether
      the port setting (or its default "587") converts to an integer. */
  datatype EmailSettings = EmailSettings(
    user: Option<string>, password: Option<string>, recipient: Option<string>, portIsInteger: bool)

  /** A setting is usable when present and not empty. */
  predicate IsSet(v: Option<string>)
  {
    v.Some? && v.value != ""
  }

  /** Sending is attempted at all only when this holds: the port converts,
      and none of sender, password and recipient is unset or empty (the three
      values `all([...])` finds falsy). */
  function CanSend(e: EmailSettings): (b: bool)
    ensures b <==> (e.portIsInteger
      && e.user != None && e.user != Some("")
      && e.password != None && e.password != Some("")
      && e.recipient != None && e.recipient != Some(""))
  {
    e.portIsInteger && IsSet(e.user) && IsSet(e.password) && IsSet(e.recipient)
  }

  /** The index of the first successful attempt, if any. */
  function FirstSuccess(outcomes: seq<bool>): (r: Option<nat>)
    ensures r.Some? ==> (r.value < |outcomes| && outcomes[r.value]
                         && forall k :: 0 <= k < r.value ==> !outcomes[k])
    ensures r.None? ==> forall k :: 0 <= k < |outcomes| ==> !outcomes[k]
  {
    if outcomes == [] then None
    else if outcomes[0] then Some(0)
    else match FirstSuccess(outcomes[1..])
      case None => None
      case Some(k) => Some(k + 1)
  }

  /** How many profiles are tried: up to and including the first success. */
  function Attempts(outcomes: seq<bool>): (n: nat)
    ensures n <= |outcomes|
  {
    match FirstSuccess(outcomes)
    case Some(k) => k + 1
    case None => |outcomes|
  }

  /** What `send_report_email` returns, given for each profile whether its
      attempt ran to the end without raising. An attempt whose mail went out
      but whose `quit()` or success message then raised counts as failed, so
      this is the function's result, not whether the mail was delivered. */
  predicate SendSucceeds(e: EmailSettings, outcomes: seq<bool>)
  {
    CanSend(e) && FirstSuccess(outcomes).Some?
  }

  /** The first success is the only index with a success and no earlier one. */
  lemma FirstSuccessUnique(outcomes: seq<bool>, k: nat)
    requires k < |outcomes| && outcomes[k] && forall j :: 0 <= j < k ==> !outcomes[j]
    ensures FirstSuccess(outcomes) == Some(k)
    ensures Attempts(outcomes) == k + 1
  {
  }

  /** `send_report_email` returns true exactly when the settings allow
      sending and some profile's attempt completes without raising. */
  lemma SendSucceedsIffSomeAttempt(e: EmailSettings, outcomes: seq<bool>)
    ensures SendSucceeds(e, outcomes) <==> CanSend(e) && exists k :: 0 <= k < |outcomes| && outcomes[k]
  {
    if exists k :: 0 <= k < |outcomes| && outcomes[k] {
      var k :| 0 <= k < |outcomes| && outcomes[k];
      assert FirstSuccess(outcomes).Some?;
    }
  }

  /** Tries the profiles in order and stops at the first attempt that
      completes without raising. */
  method TryConfigs(configs: seq<SmtpConfig>, succeeds: seq<bool>) returns (sent: bool, tried: seq<SmtpConfig>)
    requires |succeeds| == |configs|
    ensures sent <==> FirstSuccess(succeeds).Some?
    ensures tried == configs[..Attempts(succeeds)]
    ensures sent ==> |tried| > 0 && succeeds[|tried| - 1]
    ensures forall k :: 0 <= k < |tried| - 1 ==> !succeeds[k]
    ensures !sent ==> tried == configs && forall k :: 0 <= k < |succeeds| ==> !succeeds[k]
  {
    sent := false;
    tried := [];
    var i := 0;
    while i < |configs| && !sent
      invariant 0 <= i <= |configs|
      invariant tried == configs[..i]
      invariant sent <==> i > 0 && succeeds[i - 1]
      invariant forall k :: 0 <= k < (if sent then i - 1 else i) ==> !succeeds[k]
    {
      tried := tried + [configs[i]];
      sent := succeeds[i];
      i := i + 1;
    }
    if sent {
      FirstSuccessUnique(succeeds, i - 1);
    }
  }

  /** `send_report_email`, with the outcome of trying each profile given. */
  method SendReportEmail(settings: EmailSettings, succeeds: seq<bool>) returns (sent: bool, tried: seq<SmtpConfig>)
    requires |succeeds| == |FallbackConfigs|
    ensures sent == SendSucceeds(settings, succeeds)
    ensures !CanSend(settings) ==> tried == []
    ensures CanSend(settings) ==> tried == FallbackConfigs[..Attempts(succeeds)]
  {
    if !CanSend(settings) {
      return false, [];
    }
    sent, tried := TryConfigs(FallbackConfigs, succeeds);
  }
}
