/** What the VPN core's events and log lines come to: whether it ever connected, and why it
    failed last. Line numbers refer to src/vpn.rs. */
module DiagnosticsModel {
  import opened Wrappers

  datatype Event = Event(name: string, error: bool, fatal: bool) {
    predicate Fails() {
      error || fatal
    }
  }

  datatype Notice = Recorded(event: Event) | Logged(text: string)

  datatype Failure =
    | AuthenticationRejected
    | CertificateRejected
    | NoReply
    | SetupIncomplete
    | Code(code: string)

  datatype End = Because(failure: Failure) | BadCertificate | Status(code: string) | Unreported

  // ---- Texts ----

  predicate CodeChar(c: char) {
    'A' <= c <= 'Z' || '0' <= c <= '9' || c == '_'
  }

  predicate Presentable(code: string) {
    0 < |code| <= 80 && forall c | c in code :: CodeChar(c)
  }

  /** Nothing but a short symbolic name is ever repeated to the user. */
  function EventCode(name: string): (code: string)
    ensures Presentable(code)
    ensures code == name || (code == "OPENVPN_ERROR" && !Presentable(name))
  {
    if Presentable(name) then name else "OPENVPN_ERROR"
  }

  /** A name is shown as it is exactly if it is 1 to 80 ASCII capitals, digits and underscores. */
  lemma EventCodeIff(name: string)
    ensures EventCode(name) ==
      if 1 <= |name| <= 80 && (forall k | 0 <= k < |name| ::
           65 <= name[k] as int <= 90 || 48 <= name[k] as int <= 57 || name[k] as int == 95)
      then name else "OPENVPN_ERROR"
  {
    forall k | 0 <= k < |name| ensures name[k] in name {}
  }

  function Lower(c: char): char {
    if 'A' <= c <= 'Z' then c + 32 as char else c
  }

  function LowerAll(s: string): string {
    seq(|s|, i requires 0 <= i < |s| => Lower(s[i]))
  }

  predicate Contains(text: string, part: string) {
    part <= text || (text != "" && Contains(text[1..], part))
  }

  /** The part stands somewhere in the text. */
  lemma {:induction false} ContainsIff(text: string, part: string)
    ensures Contains(text, part) <==> exists i :: 0 <= i <= |text| && part <= text[i..]
  {
    assert text[0..] == text;
    if text != "" {
      ContainsIff(text[1..], part);
      forall i | 0 < i <= |text| ensures text[i..] == text[1..][i - 1..] {}
      if Contains(text, part) && !(part <= text) {
        var j :| 0 <= j <= |text[1..]| && part <= text[1..][j..];
        assert text[j + 1..] == text[1..][j..];
      }
    }
  }

  /** The text of the same length in which only ASCII capitals differ, by being small. */
  lemma LowerAllMeans(s: string)
    ensures |LowerAll(s)| == |s|
    ensures forall k | 0 <= k < |s| ::
      LowerAll(s)[k] as int == if 65 <= s[k] as int <= 90 then s[k] as int + 32 else s[k] as int
  {
  }

  /** What counts as certificate trouble: one of these phrases anywhere, in whatever case. */
  lemma CertificateTroubleIff(text: string)
    ensures CertificateTrouble(text) <==>
      exists i :: 0 <= i <= |text| && (
        || "certificate verification failed" <= LowerAll(text)[i..]
        || "certificate verify failed" <= LowerAll(text)[i..]
        || "verify-x509-name did not match" <= LowerAll(text)[i..])
  {
    var lower := LowerAll(text);
    ContainsIff(lower, "certificate verification failed");
    ContainsIff(lower, "certificate verify failed");
    ContainsIff(lower, "verify-x509-name did not match");
  }

  predicate CertificateTrouble(text: string) {
    var lower := LowerAll(text);
    || Contains(lower, "certificate verification failed")
    || Contains(lower, "certificate verify failed")
    || Contains(lower, "verify-x509-name did not match")
  }

  // ---- What a trace means ----

  predicate IsConnect(n: Notice) {
    n.Recorded? && n.event.name == "CONNECTED"
  }

  predicate IsReply(n: Notice) {
    n.Recorded? && (n.event.name == "CONNECTING" || n.event.name == "CONNECTED")
  }

  predicate IsCertificate(n: Notice) {
    n.Logged? && CertificateTrouble(n.text)
  }

  predicate IsFailure(n: Notice) {
    n.Recorded? && n.event.Fails()
  }

  predicate EverConnected(trace: seq<Notice>) {
    exists k | 0 <= k < |trace| :: IsConnect(trace[k])
  }

  predicate EverReplied(trace: seq<Notice>) {
    exists k | 0 <= k < |trace| :: IsReply(trace[k])
  }

  /** A certificate failure has been logged since the last CONNECTED. */
  predicate CertificateSince(trace: seq<Notice>) {
    exists k | 0 <= k < |trace| ::
      IsCertificate(trace[k]) && forall j | k < j < |trace| :: !IsConnect(trace[j])
  }

  /** What is to be said of a failing event, given what came before it. */
  function Reason(event: Event, before: seq<Notice>): Failure {
    if event.name == "AUTH_FAILED" then AuthenticationRejected
    else if event.name != "CONNECTION_TIMEOUT" then Code(EventCode(event.name))
    else if CertificateSince(before) then CertificateRejected
    else if !EverReplied(before) then NoReply
    else SetupIncomplete
  }

  /** The last failing event of the trace is at `k`, and no CONNECTED comes after it. */
  predicate LastFailure(trace: seq<Notice>, k: int) {
    && 0 <= k < |trace| && IsFailure(trace[k])
    && forall j | k < j < |trace| :: !IsFailure(trace[j]) && !IsConnect(trace[j])
  }

  /** `failure` is what is to be said of the last failing event at or since the last CONNECTED;
      nothing if there is none. */
  ghost predicate Explains(failure: Option<Failure>, trace: seq<Notice>) {
    match failure
    case None => forall k :: !LastFailure(trace, k)
    case Some(f) => exists k :: LastFailure(trace, k) && f == Reason(trace[k].event, trace[..k])
  }

  /** The server has been heard of: some event names a connection begun or made. */
  predicate Heard(before: seq<Notice>) {
    exists n :: n in before && n.Recorded? && n.event.name in {"CONNECTING", "CONNECTED"}
  }

  /** Each explanation says what it says: what the failing event was, and what had been heard and
      logged before. */
  lemma ReasonMeans(event: Event, before: seq<Notice>)
    ensures Reason(event, before) == AuthenticationRejected <==> event.name == "AUTH_FAILED"
    ensures event.name == "CONNECTION_TIMEOUT" ==>
      && (Reason(event, before) == CertificateRejected <==> CertificateSince(before))
      && (Reason(event, before) == NoReply <==> !CertificateSince(before) && !Heard(before))
      && (Reason(event, before) == SetupIncomplete <==> !CertificateSince(before) && Heard(before))
    ensures event.name !in {"AUTH_FAILED", "CONNECTION_TIMEOUT"} ==>
      Reason(event, before) == Code(if Presentable(event.name) then event.name else "OPENVPN_ERROR")
  {
    forall n | n in before ensures exists k :: 0 <= k < |before| && before[k] == n {}
    forall k | 0 <= k < |before| ensures before[k] in before {}
  }

  /** A trace explains one failure at most. */
  lemma ExplainsOne(a: Option<Failure>, b: Option<Failure>, trace: seq<Notice>)
    requires Explains(a, trace) && Explains(b, trace)
    ensures a == b
  {
    if a.Some? && b.Some? {
      var j :| LastFailure(trace, j) && a.value == Reason(trace[j].event, trace[..j]);
      var k :| LastFailure(trace, k) && b.value == Reason(trace[k].event, trace[..k]);
      assert j == k;
    }
  }

  lemma ConnectedAppend(trace: seq<Notice>, n: Notice)
    ensures EverConnected(trace + [n]) <==> EverConnected(trace) || IsConnect(n)
    ensures EverReplied(trace + [n]) <==> EverReplied(trace) || IsReply(n)
  {
    var all := trace + [n];
    assert all[|trace|] == n;
    forall k | 0 <= k < |trace| ensures all[k] == trace[k] {}
  }

  lemma CertificateAppend(trace: seq<Notice>, n: Notice)
    ensures CertificateSince(trace + [n]) <==> IsCertificate(n) || (CertificateSince(trace) && !IsConnect(n))
  {
    var all := trace + [n];
    assert all[|trace|] == n;
    forall k | 0 <= k < |trace| ensures all[k] == trace[k] {}
    if CertificateSince(all) && !IsCertificate(n) {
      var k :| 0 <= k < |all| && IsCertificate(all[k]) && forall j | k < j < |all| :: !IsConnect(all[j]);
      assert k < |trace| && !IsConnect(all[|trace|]);
      assert forall j | k < j < |trace| :: !IsConnect(all[j]);
    }
    if CertificateSince(trace) && !IsConnect(n) {
      var k :| 0 <= k < |trace| && IsCertificate(trace[k]) && forall j | k < j < |trace| :: !IsConnect(trace[j]);
      assert IsCertificate(all[k]);
    }
  }

  lemma FailureAppend(failure: Option<Failure>, trace: seq<Notice>, n: Notice)
    requires Explains(failure, trace)
    ensures Explains(if IsFailure(n) then Some(Reason(n.event, trace)) else if IsConnect(n) then None else failure,
                     trace + [n])
  {
    var all := trace + [n];
    assert all[|trace|] == n && all[..|trace|] == trace;
    forall k | 0 <= k < |trace| ensures all[k] == trace[k] && all[..k] == trace[..k] {}
    if IsFailure(n) {
      assert LastFailure(all, |trace|);
    } else if IsConnect(n) {
      forall k ensures !LastFailure(all, k) {}
    } else {
      forall k ensures LastFailure(all, k) <==> LastFailure(trace, k) {
        if LastFailure(all, k) {
          assert k < |trace|;
          forall j | k < j < |trace| ensures !IsFailure(trace[j]) && !IsConnect(trace[j]) {
            assert !IsFailure(all[j]) && !IsConnect(all[j]);
          }
        }
      }
    }
  }

  /** A clean reconnect wipes the slate: whatever failed before it is not mentioned again. */
  lemma ReconnectForgets(before: seq<Notice>, connect: Notice, after: seq<Notice>, failure: Option<Failure>)
    requires IsConnect(connect) && !IsFailure(connect)
    requires Explains(failure, before + [connect] + after)
    requires forall n | n in after :: !IsFailure(n) && !IsCertificate(n)
    ensures failure.None? && !CertificateSince(before + [connect] + after)
  {
    var all := before + [connect] + after;
    var at := |before|;
    assert all[at] == connect;
    forall k | at < k < |all| ensures all[k] in after {
      assert all[k] == after[k - at - 1];
    }
    forall k ensures !LastFailure(all, k) {
      if 0 <= k < at {
        assert IsConnect(all[at]);
      }
    }
  }

  class Diagnostics {
    var receivedReply: bool
    var certificateFailed: bool
    var connected: bool
    var failure: Option<Failure>
    ghost var trace: seq<Notice>

    /** Each field says of the whole trace exactly what its name promises. */
    ghost predicate Valid()
      reads this
    {
      && (connected <==> EverConnected(trace))
      && (receivedReply <==> EverReplied(trace))
      && (certificateFailed <==> CertificateSince(trace))
      && Explains(failure, trace)
    }

    constructor ()
      ensures Valid() && trace == []
    {
      receivedReply, certificateFailed, connected, failure, trace := false, false, false, None, [];
    }

    /** Lines 59 to 81. */
    method Record(event: Event)
      requires Valid()
      modifies this
      ensures Valid() && trace == old(trace) + [Recorded(event)]
    {
      ConnectedAppend(trace, Recorded(event));
      CertificateAppend(trace, Recorded(event));
      FailureAppend(failure, trace, Recorded(event));
      if event.name == "CONNECTING" {
        receivedReply := true;
      } else if event.name == "CONNECTED" {
        receivedReply := true;
        certificateFailed := false;
        connected := true;
        failure := None;
      }
      if event.error || event.fatal {
        failure := Some(
          if event.name == "AUTH_FAILED" then AuthenticationRejected
          else if event.name == "CONNECTION_TIMEOUT" && certificateFailed then CertificateRejected
          else if event.name == "CONNECTION_TIMEOUT" && !receivedReply then NoReply
          else if event.name == "CONNECTION_TIMEOUT" then SetupIncomplete
          else Code(EventCode(event.name)));
      }
      trace := trace + [Recorded(event)];
    }

    /** Lines 162 to 175. */
    method Log(text: string)
      requires Valid()
      modifies this
      ensures Valid() && trace == old(trace) + [Logged(text)]
    {
      ConnectedAppend(trace, Logged(text));
      CertificateAppend(trace, Logged(text));
      FailureAppend(failure, trace, Logged(text));
      if CertificateTrouble(text) {
        certificateFailed := true;
      }
      trace := trace + [Logged(text)];
    }

    method WasConnected() returns (yes: bool)
      requires Valid()
      ensures yes <==> exists k :: 0 <= k < |trace| && trace[k].Recorded? && trace[k].event.name == "CONNECTED"
    {
      yes := connected;
    }

    /** Lines 97 to 111: the last failure if there is one, else a certificate failure, else the
        status, of which only a presentable code is shown. */
    method SessionEnd(status: string) returns (end: End)
      requires Valid()
      ensures end.Because? <==> exists k :: LastFailure(trace, k)
      ensures end.Because? ==> Explains(Some(end.failure), trace)
      ensures end.BadCertificate? <==> (forall k :: !LastFailure(trace, k)) && CertificateSince(trace)
      ensures !end.Because? && !end.BadCertificate? ==>
        end == if status == "" then Unreported else Status(EventCode(status))
    {
      if failure.Some? {
        return Because(failure.value);
      }
      if certificateFailed {
        return BadCertificate;
      }
      end := if status != "" then Status(EventCode(status)) else Unreported;
    }
  }
}
