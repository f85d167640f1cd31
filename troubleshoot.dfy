/** `TroubleshootVpnFailure`: six pass/fail checks on the dashboard's
    appliance status text and Client VPN settings text. The checks are
    plain functions of the texts; the class keeps the six verdicts in a
    list that each test may only turn from passed to failed. */
module Troubleshoot {
  import opened Wrappers
  import opened PyStr

  const StatusMarker := "status#"
  /** The status digit sits two characters after the marker (`status#":0`). */
  const StatusOffset := 9
  const RequestIpMarker := "\"request_ip\":"
  /** One past the marker, skipping the value's opening quote. */
  const RequestIpOffset := 14
  const VpnEnabledMarker := ",\"client_vpn_enabled\""
  /** One past the marker, skipping the colon. */
  const VpnEnabledOffset := 22
  const MerakiCloudSelected := "Meraki cloud</option></select>"
  const MerakiOptionSelected := "<option value=\"meraki\" selected=\"selected\">"
  const Forwards500 := "\"public_port\":\"500\""
  const Forwards4500 := "\"public_port\":\"4500\""

  /** The number of checks, one slot each. */
  const TestCount := 6

  // ---------------------------------------------------------------- checks

  /** test0: read the status digit; the MX is online iff it is 0. Indexing
      past the end raises IndexError, a non-digit makes `int` raise
      ValueError. */
  function MxOnline(fwStatusText: string): Result<bool, PyException>
  {
    var i := Find(fwStatusText, StatusMarker) + StatusOffset;
    if i >= |fwStatusText| then Err(IndexError)
    else if !IsDigit(fwStatusText[i]) then Err(ValueError)
    else Ok(DigitValue(fwStatusText[i]) == 0)
  }

  /** The status field as the dashboard writes it decides the verdict. */
  lemma MxOnlineReadsStatus(pre: string, c1: char, c2: char, d: char, rest: string)
    requires forall j :: 0 <= j < |pre| ==> !OccursAt(pre + StatusMarker, StatusMarker, j)
    ensures var t := pre + StatusMarker + [c1, c2, d] + rest;
      MxOnline(t) == if IsDigit(d) then Ok(d == '0') else Err(ValueError)
  {
    var t := pre + StatusMarker + [c1, c2, d] + rest;
    FindAfterPrefix(pre, StatusMarker, [c1, c2, d] + rest);
    assert t == pre + StatusMarker + ([c1, c2, d] + rest);
    assert t[|pre| + StatusOffset] == d;
  }

  /** Without the marker the check still reads a character: the one at
      index 8. */
  lemma MxOnlineWithoutMarker(fwStatusText: string)
    requires !Contains(fwStatusText, StatusMarker)
    ensures MxOnline(fwStatusText) ==
      if |fwStatusText| <= 8 then Err(IndexError)
      else if IsDigit(fwStatusText[8]) then Ok(fwStatusText[8] == '0')
      else Err(ValueError)
  {
  }

  /** The source-side public address of the client: from just past the
      marker's value quote up to the next quote, empty when there is none. */
  function RequestIp(fwStatusText: string): string
  {
    var ipStart := Find(fwStatusText, RequestIpMarker) + RequestIpOffset;
    var ipEnd := Find(Slice(fwStatusText, ipStart, |fwStatusText|), "\"") + ipStart;
    Slice(fwStatusText, ipStart, ipEnd)
  }

  /** The extracted address holds no quote, and a non-empty one sits right
      after the marker and the value's opening quote. */
  lemma RequestIpShape(fwStatusText: string)
    ensures var ip := RequestIp(fwStatusText);
      (forall k :: 0 <= k < |ip| ==> ip[k] != '"') &&
      (ip != "" ==> OccursAt(fwStatusText, ip, Find(fwStatusText, RequestIpMarker) + RequestIpOffset))
  {
    var ipStart := Find(fwStatusText, RequestIpMarker) + RequestIpOffset;
    var rest := Slice(fwStatusText, ipStart, |fwStatusText|);
    var quote := Find(rest, "\"");
    forall k | 0 <= k < quote
      ensures rest[k] != '"'
    {
      assert !OccursAt(rest, "\"", k);
      assert rest[k..k + 1] == [rest[k]];
    }
    assert quote >= 0 ==> RequestIp(fwStatusText) == rest[..quote];
  }

  /** The address field as the dashboard writes it is read back whole. */
  lemma RequestIpReadsField(pre: string, ip: string, rest: string)
    requires forall j :: 0 <= j < |pre| ==> !OccursAt(pre + RequestIpMarker, RequestIpMarker, j)
    requires forall k :: 0 <= k < |ip| ==> ip[k] != '"'
    ensures RequestIp(pre + RequestIpMarker + "\"" + ip + "\"" + rest) == ip
  {
    var t := pre + RequestIpMarker + "\"" + ip + "\"" + rest;
    QuotedFieldAfterMarker(pre, RequestIpMarker, ip, rest);
    var ipStart := |pre| + |RequestIpMarker| + 1;
    RequestIpFrom(t, ipStart, |ip|);
    assert t[ipStart..][..|ip|] == ip;
  }

  /** In `pre + m + '"' + ip + '"' + rest`, with `m` first found right after
      `pre` and no quote in `ip`, the marker is found after `pre` and the
      next quote after `ip`. */
  lemma QuotedFieldAfterMarker(pre: string, m: string, ip: string, rest: string)
    requires forall j :: 0 <= j < |pre| ==> !OccursAt(pre + m, m, j)
    requires forall k :: 0 <= k < |ip| ==> ip[k] != '"'
    ensures var t := pre + m + "\"" + ip + "\"" + rest;
      Find(t, m) == |pre| && t[|pre| + |m| + 1..] == ip + "\"" + rest &&
      Find(ip + "\"" + rest, "\"") == |ip|
  {
    var t := pre + m + "\"" + ip + "\"" + rest;
    var tail := "\"" + ip + "\"" + rest;
    assert t == pre + m + tail;
    FindAfterPrefix(pre, m, tail);
    forall j | 0 <= j < |ip|
      ensures !OccursAt(ip + "\"", "\"", j)
    {
      assert (ip + "\"")[j..j + 1] == [ip[j]];
    }
    FindAfterPrefix(ip, "\"", rest);
  }

  /** Once the marker and the closing quote are located, the address is what
      lies between them. */
  lemma RequestIpFrom(t: string, ipStart: nat, quote: nat)
    requires Find(t, RequestIpMarker) + RequestIpOffset == ipStart
    requires ipStart <= |t| && Find(t[ipStart..], "\"") == quote
    ensures ipStart + quote <= |t| && RequestIp(t) == t[ipStart..ipStart + quote]
  {
    assert Slice(t, ipStart, |t|) == t[ipStart..];
  }

  /** test3: the first character of the `client_vpn_enabled` value must be
      `t`; indexing past the end raises IndexError. */
  function VpnEnabled(clientVpnText: string): Result<bool, PyException>
  {
    var i := Find(clientVpnText, VpnEnabledMarker) + VpnEnabledOffset;
    if i >= |clientVpnText| then Err(IndexError) else Ok(clientVpnText[i] == 't')
  }

  lemma VpnEnabledReadsValue(pre: string, c: char, v: char, rest: string)
    requires forall j :: 0 <= j < |pre| ==> !OccursAt(pre + VpnEnabledMarker, VpnEnabledMarker, j)
    ensures VpnEnabled(pre + VpnEnabledMarker + [c, v] + rest) == Ok(v == 't')
  {
    var t := pre + VpnEnabledMarker + [c, v] + rest;
    FindAfterPrefix(pre, VpnEnabledMarker, [c, v] + rest);
    assert t == pre + VpnEnabledMarker + ([c, v] + rest);
    assert t[|pre| + VpnEnabledOffset] == v;
  }

  /** test4: Meraki authentication is selected in either of the two ways
      the settings page can show it. */
  predicate AuthTypeIsMeraki(clientVpnText: string)
  {
    !(Find(clientVpnText, MerakiCloudSelected) == -1 && Find(clientVpnText, MerakiOptionSelected) == -1)
  }

  /** test5: a forward of UDP 500 or UDP 4500 on the appliance. */
  predicate PortForwardConflict(clientVpnText: string)
  {
    Find(clientVpnText, Forwards500) != -1 || Find(clientVpnText, Forwards4500) != -1
  }

  /** Both substring checks only look for a marker, so surrounding text
      never changes a positive answer. */
  lemma MarkerChecksSurviveContext(clientVpnText: string, pre: string, post: string)
    ensures AuthTypeIsMeraki(clientVpnText) ==> AuthTypeIsMeraki(pre + clientVpnText + post)
    ensures PortForwardConflict(clientVpnText) ==> PortForwardConflict(pre + clientVpnText + post)
  {
    if Contains(clientVpnText, MerakiCloudSelected) {
      ContainsInContext(clientVpnText, MerakiCloudSelected, pre, post);
    }
    if Contains(clientVpnText, MerakiOptionSelected) {
      ContainsInContext(clientVpnText, MerakiOptionSelected, pre, post);
    }
    if Contains(clientVpnText, Forwards500) {
      ContainsInContext(clientVpnText, Forwards500, pre, post);
    }
    if Contains(clientVpnText, Forwards4500) {
      ContainsInContext(clientVpnText, Forwards4500, pre, post);
    }
  }

  // --------------------------------------------------------------- verdicts

  /** Recording one check's verdict in slot `k`: a failure clears the slot,
      a pass leaves every slot as it was. */
  function Record(slots: seq<bool>, k: nat, passed: bool): (r: seq<bool>)
    requires k < |slots|
    ensures |r| == |slots|
    ensures forall i :: 0 <= i < |r| ==> r[i] == (slots[i] && (i != k || passed))
  {
    if passed then slots else slots[k := false]
  }

  /** Six passed checks. */
  const AllPassed: seq<bool> := [true, true, true, true, true, true]

  datatype Outcome = Outcome(result: Result<(), PyException>, slots: seq<bool>)

  /** `run_tests()` on the given verdicts; an exception in test0 or test3
      stops the run with the verdicts recorded so far. `pingResponse` is the
      exit status of test1's ping. */
  function RunTestsOn(slots: seq<bool>, fwStatusText: string, firewallIp: string,
                      clientVpnText: string, pingResponse: int): Outcome
    requires |slots| == TestCount
  {
    match MxOnline(fwStatusText)
    case Err(e) => Outcome(Err(e), slots)
    case Ok(online) =>
      var s1 := Record(Record(Record(slots, 0, online), 1, pingResponse == 0),
                       2, RequestIp(fwStatusText) != firewallIp);
      match VpnEnabled(clientVpnText)
      case Err(e) => Outcome(Err(e), s1)
      case Ok(enabled) =>
        Outcome(Ok(()), Record(Record(Record(s1, 3, enabled), 4, AuthTypeIsMeraki(clientVpnText)),
                               5, !PortForwardConflict(clientVpnText)))
  }

  /** A run never turns a failed slot back into a passed one. */
  lemma RunTestsOnlyClears(slots: seq<bool>, fwStatusText: string, firewallIp: string,
                           clientVpnText: string, pingResponse: int)
    requires |slots| == TestCount
    ensures var o := RunTestsOn(slots, fwStatusText, firewallIp, clientVpnText, pingResponse);
      |o.slots| == TestCount && forall i :: 0 <= i < TestCount && o.slots[i] ==> slots[i]
  {
  }

  /** From a fresh list, a completed run leaves exactly each check's own
      verdict in its slot; an exception leaves the later slots passed. */
  lemma RunTestsVerdicts(fwStatusText: string, firewallIp: string, clientVpnText: string, pingResponse: int)
    ensures var o := RunTestsOn(AllPassed, fwStatusText, firewallIp, clientVpnText, pingResponse);
      (o.result.Ok? <==> MxOnline(fwStatusText).Ok? && VpnEnabled(clientVpnText).Ok?) &&
      (MxOnline(fwStatusText).Err? ==> o == Outcome(Err(MxOnline(fwStatusText).error), AllPassed)) &&
      (MxOnline(fwStatusText).Ok? ==>
        o.slots[0] == MxOnline(fwStatusText).value &&
        o.slots[1] == (pingResponse == 0) &&
        o.slots[2] == (RequestIp(fwStatusText) != firewallIp) &&
        (VpnEnabled(clientVpnText).Err? ==>
          o.result == Err(VpnEnabled(clientVpnText).error) && o.slots[3] && o.slots[4] && o.slots[5]) &&
        (VpnEnabled(clientVpnText).Ok? ==>
          o.slots[3] == VpnEnabled(clientVpnText).value &&
          o.slots[4] == AuthTypeIsMeraki(clientVpnText) &&
          o.slots[5] == !PortForwardConflict(clientVpnText)))
  {
  }

  /** The source starts with empty texts, and on those test0 raises
      IndexError before any verdict is recorded. */
  lemma EmptyTextsFailAtOnce(firewallIp: string, clientVpnText: string, pingResponse: int)
    ensures RunTestsOn(AllPassed, "", firewallIp, clientVpnText, pingResponse) == Outcome(Err(IndexError), AllPassed)
  {
  }

  // ------------------------------------------------------------------ class

  class TroubleshootVpnFailure {
    var fwStatusText: string
    var ddnsAddress: string
    var firewallIp: string
    var clientVpnText: string
    /** One slot per check: false for failed, true for passed. */
    const hasPassedValidation: array<bool>

    constructor(fwStatusText: string, ddnsAddress: string, firewallIp: string, clientVpnText: string)
      ensures this.fwStatusText == fwStatusText && this.ddnsAddress == ddnsAddress
      ensures this.firewallIp == firewallIp && this.clientVpnText == clientVpnText
      ensures fresh(hasPassedValidation) && hasPassedValidation[..] == AllPassed
    {
      this.fwStatusText := fwStatusText;
      this.ddnsAddress := ddnsAddress;
      this.firewallIp := firewallIp;
      this.clientVpnText := clientVpnText;
      hasPassedValidation := new bool[TestCount](_ => true);
    }

    method RunTests(pingResponse: int) returns (r: Result<(), PyException>)
      requires hasPassedValidation.Length == TestCount
      modifies hasPassedValidation
      ensures var o := RunTestsOn(old(hasPassedValidation[..]), fwStatusText, firewallIp, clientVpnText, pingResponse);
        r == o.result && hasPassedValidation[..] == o.slots
    {
      r := Test0IsMxOnline();
      if r.Err? {
        return;
      }
      Test1IsFwReachable(pingResponse);
      Test2IsUserBehindFw();
      r := Test3IsClientVpnEnabled();
      if r.Err? {
        return;
      }
      Test4IsAuthTypeMeraki();
      Test5IncompatiblePortForwards();
    }

    method Test0IsMxOnline() returns (r: Result<(), PyException>)
      requires hasPassedValidation.Length == TestCount
      modifies hasPassedValidation
      ensures MxOnline(fwStatusText).Err? ==>
        r == Err(MxOnline(fwStatusText).error) && hasPassedValidation[..] == old(hasPassedValidation[..])
      ensures MxOnline(fwStatusText).Ok? ==>
        r == Ok(()) && hasPassedValidation[..] == Record(old(hasPassedValidation[..]), 0, MxOnline(fwStatusText).value)
    {
      var i := Find(fwStatusText, StatusMarker) + StatusOffset;
      if i >= |fwStatusText| {
        return Err(IndexError);
      }
      if !IsDigit(fwStatusText[i]) {
        return Err(ValueError);
      }
      var isOnlineStatusCode := DigitValue(fwStatusText[i]);
      if isOnlineStatusCode != 0 {
        hasPassedValidation[0] := false;
      }
      r := Ok(());
    }

    /** The verdict of test1, given the exit status of its ping. */
    method Test1IsFwReachable(pingResponse: int)
      requires hasPassedValidation.Length == TestCount
      modifies hasPassedValidation
      ensures hasPassedValidation[..] == Record(old(hasPassedValidation[..]), 1, pingResponse == 0)
    {
      if pingResponse != 0 {
        hasPassedValidation[1] := false;
      }
    }

    method Test2IsUserBehindFw()
      requires hasPassedValidation.Length == TestCount
      modifies hasPassedValidation
      ensures hasPassedValidation[..] ==
        Record(old(hasPassedValidation[..]), 2, RequestIp(fwStatusText) != firewallIp)
    {
      var ipStart := Find(fwStatusText, RequestIpMarker) + RequestIpOffset;
      var ipEnd := Find(Slice(fwStatusText, ipStart, |fwStatusText|), "\"") + ipStart;
      var srcPublicIp := Slice(fwStatusText, ipStart, ipEnd);
      assert srcPublicIp == RequestIp(fwStatusText);
      if srcPublicIp == firewallIp {
        hasPassedValidation[2] := false;
      }
    }

    method Test3IsClientVpnEnabled() returns (r: Result<(), PyException>)
      requires hasPassedValidation.Length == TestCount
      modifies hasPassedValidation
      ensures VpnEnabled(clientVpnText).Err? ==>
        r == Err(VpnEnabled(clientVpnText).error) && hasPassedValidation[..] == old(hasPassedValidation[..])
      ensures VpnEnabled(clientVpnText).Ok? ==>
        r == Ok(()) && hasPassedValidation[..] == Record(old(hasPassedValidation[..]), 3, VpnEnabled(clientVpnText).value)
    {
      var i := Find(clientVpnText, VpnEnabledMarker) + VpnEnabledOffset;
      if i >= |clientVpnText| {
        return Err(IndexError);
      }
      if clientVpnText[i] != 't' {
        hasPassedValidation[3] := false;
      }
      r := Ok(());
    }

    method Test4IsAuthTypeMeraki()
      requires hasPassedValidation.Length == TestCount
      modifies hasPassedValidation
      ensures hasPassedValidation[..] == Record(old(hasPassedValidation[..]), 4, AuthTypeIsMeraki(clientVpnText))
    {
      var merakiSelectType1 := Find(clientVpnText, MerakiCloudSelected);
      var merakiSelectType2 := Find(clientVpnText, MerakiOptionSelected);
      if merakiSelectType1 == -1 && merakiSelectType2 == -1 {
        hasPassedValidation[4] := false;
      }
    }

    method Test5IncompatiblePortForwards()
      requires hasPassedValidation.Length == TestCount
      modifies hasPassedValidation
      ensures hasPassedValidation[..] ==
        Record(old(hasPassedValidation[..]), 5, !PortForwardConflict(clientVpnText))
    {
      var isForwarding500 := Find(clientVpnText, Forwards500) != -1;
      var isForwarding4500 := Find(clientVpnText, Forwards4500) != -1;
      if isForwarding500 {
        hasPassedValidation[5] := false;
      }
      if isForwarding4500 {
        hasPassedValidation[5] := false;
      }
    }
  }

  /** `TroubleshootVpnFailure()`: build the object, then run every test. */
  method Start(fwStatusText: string, ddnsAddress: string, firewallIp: string, clientVpnText: string,
               pingResponse: int)
    returns (t: TroubleshootVpnFailure, r: Result<(), PyException>)
    ensures fresh(t) && fresh(t.hasPassedValidation)
    ensures var o := RunTestsOn(AllPassed, fwStatusText, firewallIp, clientVpnText, pingResponse);
      r == o.result && t.hasPassedValidation[..] == o.slots
  {
    t := new TroubleshootVpnFailure(fwStatusText, ddnsAddress, firewallIp, clientVpnText);
    r := t.RunTests(pingResponse);
  }
}
