/**
 * Pure specifications of what `UsbDeviceWrapper` computes: the status word
 * of a Get Status request, the layout of a bulk endpoint byte, the list of
 * configurations that survive their fetch, the order in which interfaces are
 * claimed, and the reference balance a device has in the native log.
 */
module DeviceSpec {
  import opened Wrappers
  import opened Native

  /** What the wrapper throws: a native error code, or the Get Status length check. */
  datatype UsbError = NativeError(code: int) | StatusReadFailed

  // ---------------------------------------------------------------------
  // Get Status (section 9.4.5 of the USB 2.0 Specification): two bytes,
  // least significant first (section 8.1).
  // ---------------------------------------------------------------------

  /** `LIBUSB_REQUEST_GET_STATUS` */
  const GetStatusRequest: U8 := 0x00

  function LowByte(w: bv16): bv8 { (w & 0xff) as bv8 }
  function HighByte(w: bv16): bv8 { (w >> 8) as bv8 }

  /** The status word assembled from the two bytes read, in little-endian order. */
  function LittleEndianWord(lo: bv8, hi: bv8): (w: bv16)
    ensures LowByte(w) == lo && HighByte(w) == hi
  {
    ((hi as bv16) << 8) | (lo as bv16)
  }

  /** As a number, the status word is the low byte plus 256 times the high byte. */
  lemma LittleEndianValue(lo: bv8, hi: bv8)
    ensures LittleEndianWord(lo, hi) as int == lo as int + 0x100 * hi as int
  {
    var h, l := hi as bv16, lo as bv16;
    ShiftOrIsSum(h, l);
    SumValue(h, l);
  }

  lemma ShiftOrIsSum(h: bv16, l: bv16)
    requires h < 0x100 && l < 0x100
    ensures (h << 8) | l == h * 0x100 + l
  {
  }

  lemma SumValue(h: bv16, l: bv16)
    requires h < 0x100 && l < 0x100
    ensures (h * 0x100 + l) as int == h as int * 0x100 + l as int
  {
  }

  /** Every word is assembled from its own two bytes. */
  lemma WordFromItsBytes(w: bv16)
    ensures LittleEndianWord(LowByte(w), HighByte(w)) == w
  {
  }

  // ---------------------------------------------------------------------
  // The endpoint byte of a bulk transfer: direction in bit 7 (1 means
  // device to host), endpoint address in bits 0-6.
  // ---------------------------------------------------------------------

  const EndpointDirectionMask: bv8 := 0x80
  const EndpointAddressMask: bv8 := 0x7f

  type EndpointAddress = a: bv8 | a & !EndpointAddressMask == 0

  predicate IsDeviceToHost(endpoint: bv8) { endpoint & EndpointDirectionMask != 0 }
  function AddressOf(endpoint: bv8): EndpointAddress { endpoint & EndpointAddressMask }

  /** The endpoint byte for a direction and an address: both read back unchanged. */
  function EndpointByte(deviceToHost: bool, address: EndpointAddress): (e: bv8)
    ensures IsDeviceToHost(e) == deviceToHost
    ensures AddressOf(e) == address
  {
    (if deviceToHost then EndpointDirectionMask else 0) | address
  }

  /** Splitting an endpoint byte and joining the parts gives it back. */
  lemma EndpointSplitJoin(e: bv8)
    ensures EndpointByte(IsDeviceToHost(e), AddressOf(e)) == e
  {
  }

  // ---------------------------------------------------------------------
  // GetConfigDescriptorList: fetch configurations 0 .. n-1, keep those
  // whose fetch returned 0.
  // ---------------------------------------------------------------------

  /** The fetches of configurations 0 .. count-1, the first at log position `start`. */
  function ConfigReads(device: Option<DeviceId>, answer: nat -> ConfigAnswer, start: nat, count: U8): (fetches: seq<Call>)
    ensures |fetches| == count
  {
    if count == 0 then []
    else ConfigReads(device, answer, start, count - 1) + [ConfigRead(device, count - 1, answer(start + count - 1))]
  }

  predicate Fetched(c: Call) { c.ConfigRead? && c.configAnswer.ret == 0 }

  /** The configurations of the successful fetches among `fetches`, in the order of `fetches`. */
  function SuccessfulConfigs(fetches: seq<Call>): seq<ConfigDescriptor> {
    if fetches == [] then []
    else
      var last := fetches[|fetches| - 1];
      SuccessfulConfigs(fetches[..|fetches| - 1]) + (if Fetched(last) then [last.configAnswer.config] else [])
  }

  /** The log positions of the successful fetches among `fetches`, in increasing order. */
  function SuccessfulPositions(fetches: seq<Call>): seq<nat> {
    if fetches == [] then []
    else SuccessfulPositions(fetches[..|fetches| - 1]) + (if Fetched(fetches[|fetches| - 1]) then [|fetches| - 1] else [])
  }

  /**
   * One round of the fetch loop: the fetch of configuration `i` is appended
   * to the log after the earlier ones, and its configuration is kept
   * exactly when the fetch answered 0.
   */
  lemma ConfigReadsStep(device: Option<DeviceId>, answer: nat -> ConfigAnswer, base: seq<Call>, i: nat)
    requires i < 0xff
    ensures var before := ConfigReads(device, answer, |base|, i);
      var c := ConfigRead(device, i, answer(|base + before|));
      && base + ConfigReads(device, answer, |base|, i + 1) == (base + before) + [c]
      && SuccessfulConfigs(ConfigReads(device, answer, |base|, i + 1)) ==
           SuccessfulConfigs(before) + if c.configAnswer.ret == 0 then [c.configAnswer.config] else []
  {
    var before := ConfigReads(device, answer, |base|, i);
    var c := ConfigRead(device, i, answer(|base + before|));
    assert ConfigReads(device, answer, |base|, i + 1) == before + [c];
    SuccessfulConfigsSnoc(before, c);
    AppendAssociates(base, before, [c]);
  }

  /** The native calls `GetConfigDescriptorList` issues, and what it returns or throws. */
  datatype ListTrace = ListTrace(calls: seq<Call>, result: Result<seq<ConfigDescriptor>, UsbError>)

  /**
   * Listing the configurations of `device` from log position `start`: read
   * the device descriptor (a negative answer is thrown), then fetch
   * configurations 0 .. bNumConfigurations-1 and keep, in order, those whose
   * fetch answered 0. A failed fetch is skipped, never thrown.
   */
  function ConfigListRun(device: Option<DeviceId>, descriptorAnswer: nat -> DescriptorAnswer,
                         configAnswer: nat -> ConfigAnswer, start: nat): (t: ListTrace)
    ensures |t.calls| >= 1 && t.calls[0] == DescriptorRead(device, descriptorAnswer(start))
    ensures t.result.Failure? <==> descriptorAnswer(start).ret < 0
    ensures t.result.Success? ==>
      |t.calls| == 1 + descriptorAnswer(start).descriptor.numConfigurations &&
      |t.result.value| <= descriptorAnswer(start).descriptor.numConfigurations
  {
    var a := descriptorAnswer(start);
    if a.ret < 0 then ListTrace([DescriptorRead(device, a)], Failure(NativeError(a.ret)))
    else
      var fetches := ConfigReads(device, configAnswer, start + 1, a.descriptor.numConfigurations);
      SuccessfulConfigsLength(fetches);
      ListTrace([DescriptorRead(device, a)] + fetches, Success(SuccessfulConfigs(fetches)))
  }

  /** One successful position per kept configuration, and no more of either than fetches. */
  lemma {:induction false} SuccessfulConfigsLength(fetches: seq<Call>)
    ensures |SuccessfulConfigs(fetches)| == |SuccessfulPositions(fetches)| <= |fetches|
  {
    if fetches != [] {
      SuccessfulConfigsLength(fetches[..|fetches| - 1]);
    }
  }

  /**
   * The j-th kept configuration is the one fetched at the j-th successful
   * position, and the positions strictly increase.
   */
  lemma {:induction false} SuccessfulConfigsInOrder(fetches: seq<Call>)
    ensures var configs, positions := SuccessfulConfigs(fetches), SuccessfulPositions(fetches);
      && |configs| == |positions|
      && (forall j :: 0 <= j < |positions| ==>
            positions[j] < |fetches| && Fetched(fetches[positions[j]]) &&
            configs[j] == fetches[positions[j]].configAnswer.config)
      && (forall j, j' :: 0 <= j < j' < |positions| ==> positions[j] < positions[j'])
  {
    SuccessfulConfigsLength(fetches);
    if fetches != [] {
      var front := fetches[..|fetches| - 1];
      SuccessfulConfigsInOrder(front);
      SuccessfulConfigsLength(front);
      assert forall k :: 0 <= k < |front| ==> front[k] == fetches[k];
    }
  }

  /** No successful fetch is skipped. */
  lemma {:induction false} SuccessfulPositionsComplete(fetches: seq<Call>)
    ensures forall k :: 0 <= k < |fetches| && Fetched(fetches[k]) ==> k in SuccessfulPositions(fetches)
  {
    if fetches != [] {
      var front := fetches[..|fetches| - 1];
      SuccessfulPositionsComplete(front);
      assert forall k :: 0 <= k < |front| ==> front[k] == fetches[k];
    }
  }

  /** One more fetch keeps its configuration exactly when it succeeded. */
  lemma SuccessfulConfigsSnoc(fetches: seq<Call>, c: Call)
    ensures SuccessfulConfigs(fetches + [c]) ==
            SuccessfulConfigs(fetches) + (if Fetched(c) then [c.configAnswer.config] else [])
  {
    assert (fetches + [c])[..|fetches|] == fetches;
  }

  /** The fetches made for a device whose descriptor announces `count` configurations. */
  lemma {:induction false} ConfigReadsAt(device: Option<DeviceId>, answer: nat -> ConfigAnswer, start: nat, count: U8, i: nat)
    requires i < count
    ensures ConfigReads(device, answer, start, count)[i] == ConfigRead(device, i, answer(start + i))
  {
    if i < count - 1 {
      ConfigReadsAt(device, answer, start, count - 1, i);
    }
  }

  // ---------------------------------------------------------------------
  // ClaimInterface: interface numbers in configuration, interface,
  // alternate-setting order; the first failed claim stops the walk.
  // ---------------------------------------------------------------------

  /** The numbers claimed for one interface: one per alternate setting. */
  function AltSettingPlan(alts: seq<AltSetting>): (plan: seq<int>)
    ensures |plan| == |alts|
  {
    if alts == [] then []
    else AltSettingPlan(alts[..|alts| - 1]) + [alts[|alts| - 1].interfaceNumber]
  }

  /** The numbers claimed for one configuration: each interface's, in order. */
  function InterfacePlan(interfaces: seq<Interface>): seq<int> {
    if interfaces == [] then []
    else InterfacePlan(interfaces[..|interfaces| - 1]) + AltSettingPlan(interfaces[|interfaces| - 1].altSettings)
  }

  /** The numbers claimed for a list of configurations: each configuration's, in order. */
  function ClaimPlan(configs: seq<ConfigDescriptor>): seq<int> {
    if configs == [] then []
    else ClaimPlan(configs[..|configs| - 1]) + InterfacePlan(configs[|configs| - 1].interfaces)
  }

  lemma {:induction false} AltSettingPlanAppend(a: seq<AltSetting>, b: seq<AltSetting>)
    ensures AltSettingPlan(a + b) == AltSettingPlan(a) + AltSettingPlan(b)
  {
    if b != [] {
      var b' := b[..|b| - 1];
      assert (a + b)[..|a + b| - 1] == a + b';
      AltSettingPlanAppend(a, b');
    } else {
      assert a + b == a;
    }
  }

  lemma {:induction false} InterfacePlanAppend(a: seq<Interface>, b: seq<Interface>)
    ensures InterfacePlan(a + b) == InterfacePlan(a) + InterfacePlan(b)
  {
    if b != [] {
      var b' := b[..|b| - 1];
      assert (a + b)[..|a + b| - 1] == a + b';
      InterfacePlanAppend(a, b');
    } else {
      assert a + b == a;
    }
  }

  lemma {:induction false} ClaimPlanAppend(a: seq<ConfigDescriptor>, b: seq<ConfigDescriptor>)
    ensures ClaimPlan(a + b) == ClaimPlan(a) + ClaimPlan(b)
  {
    if b != [] {
      var b' := b[..|b| - 1];
      assert (a + b)[..|a + b| - 1] == a + b';
      ClaimPlanAppend(a, b');
    } else {
      assert a + b == a;
    }
  }

  /** The native claims issued for `plan`, the first at log position `start`, and how the walk ended. */
  datatype ClaimTrace = ClaimTrace(calls: seq<Call>, outcome: Outcome<UsbError>)

  predicate ClaimSucceeded(c: Call) { c.Claimed? && c.ret == 0 }

  /**
   * Claiming `plan` in order, the claim of `plan[k]` answered by
   * `answer(start + k)`, and stopping at the first non-zero answer, which
   * is thrown. A walk that passes has issued one claim per planned number.
   */
  function ClaimRun(handle: Option<HandleId>, answer: nat -> int, start: nat, plan: seq<int>): (t: ClaimTrace)
    ensures |t.calls| <= |plan|
    ensures t.outcome.Pass? ==> |t.calls| == |plan|
    decreases |plan|
  {
    if plan == [] then ClaimTrace([], Pass)
    else
      var ret := answer(start);
      var call := Claimed(handle, plan[0], ret);
      if ret != 0 then ClaimTrace([call], Fail(NativeError(ret)))
      else
        var rest := ClaimRun(handle, answer, start + 1, plan[1..]);
        ClaimTrace([call] + rest.calls, rest.outcome)
  }

  /**
   * The walk claims a prefix of `plan`, in order, each claim carrying the
   * answer of its log position.
   */
  lemma {:induction false} ClaimRunFollowsPlan(handle: Option<HandleId>, answer: nat -> int, start: nat, plan: seq<int>)
    ensures var t := ClaimRun(handle, answer, start, plan);
      && |t.calls| <= |plan|
      && (forall k :: 0 <= k < |t.calls| ==> t.calls[k] == Claimed(handle, plan[k], answer(start + k)))
    decreases |plan|
  {
    if plan != [] && answer(start) == 0 {
      ClaimRunFollowsPlan(handle, answer, start + 1, plan[1..]);
      var t, rest := ClaimRun(handle, answer, start, plan), ClaimRun(handle, answer, start + 1, plan[1..]);
      forall k | 0 <= k < |t.calls|
        ensures t.calls[k] == Claimed(handle, plan[k], answer(start + k))
      {
        if k > 0 {
          assert t.calls[k] == rest.calls[k - 1];
          assert plan[1..][k - 1] == plan[k];
          assert start + 1 + (k - 1) == start + k;
        }
      }
    }
  }

  /**
   * The walk stops at the first failed claim: every claim issued before
   * the last one succeeded; it passes exactly when the whole plan was
   * claimed and every claim succeeded; otherwise it fails with the non-zero
   * code of the last claim issued.
   */
  lemma {:induction false} ClaimRunStopsAtFirstFailure(handle: Option<HandleId>, answer: nat -> int, start: nat, plan: seq<int>)
    ensures var t := ClaimRun(handle, answer, start, plan);
      && (forall k :: 0 <= k < |t.calls| - 1 ==> ClaimSucceeded(t.calls[k]))
      && (t.outcome.Pass? <==> |t.calls| == |plan| && forall k :: 0 <= k < |t.calls| ==> ClaimSucceeded(t.calls[k]))
      && (t.outcome.Fail? ==>
            |t.calls| > 0 && t.calls[|t.calls| - 1].Claimed? && t.calls[|t.calls| - 1].ret != 0 &&
            t.outcome.error == NativeError(t.calls[|t.calls| - 1].ret))
    decreases |plan|
  {
    if plan == [] {
    } else if answer(start) != 0 {
      assert !ClaimSucceeded(ClaimRun(handle, answer, start, plan).calls[0]);
    } else {
      ClaimRunStopsAtFirstFailure(handle, answer, start + 1, plan[1..]);
      var t, rest := ClaimRun(handle, answer, start, plan), ClaimRun(handle, answer, start + 1, plan[1..]);
      assert ClaimSucceeded(t.calls[0]);
      assert forall k :: 1 <= k < |t.calls| ==> t.calls[k] == rest.calls[k - 1];
      if rest.outcome.Pass? {
        assert forall k :: 0 <= k < |t.calls| ==> ClaimSucceeded(t.calls[k]);
      } else {
        assert t.calls[|t.calls| - 1] == rest.calls[|rest.calls| - 1];
      }
    }
  }

  /**
   * Claiming `a + b` is claiming `a` and, only if that passed, going on
   * with `b` from the next log position.
   */
  lemma {:induction false} ClaimRunAppend(handle: Option<HandleId>, answer: nat -> int, start: nat, a: seq<int>, b: seq<int>)
    ensures var ta := ClaimRun(handle, answer, start, a);
      ClaimRun(handle, answer, start, a + b) ==
        if ta.outcome.Pass? then
          var tb := ClaimRun(handle, answer, start + |a|, b);
          ClaimTrace(ta.calls + tb.calls, tb.outcome)
        else ta
    decreases |a|
  {
    if a == [] {
      assert a + b == b;
    } else {
      assert (a + b)[0] == a[0];
      assert (a + b)[1..] == a[1..] + b;
      if answer(start) == 0 {
        ClaimRunAppend(handle, answer, start + 1, a[1..], b);
        var call := Claimed(handle, a[0], 0);
        var rest := ClaimRun(handle, answer, start + 1, a[1..]);
        if rest.outcome.Pass? {
          var tb := ClaimRun(handle, answer, start + |a|, b);
          assert start + 1 + |a[1..]| == start + |a|;
          assert [call] + (rest.calls + tb.calls) == ([call] + rest.calls) + tb.calls;
        }
      }
    }
  }


  /**
   * One round of a claim loop. `before` is the log after `done` was claimed
   * successfully from `base`; the round claimed `next` from there and left
   * `after` with outcome `r`. Then `after` is the walk over `front ==
   * done + next` from `base`.
   */
  lemma ClaimLoopStep(handle: Option<HandleId>, answer: nat -> int, base: seq<Call>, before: seq<Call>, after: seq<Call>,
                      done: seq<int>, next: seq<int>, front: seq<int>, r: Outcome<UsbError>)
    requires front == done + next
    requires var td := ClaimRun(handle, answer, |base|, done); before == base + td.calls && td.outcome == Pass
    requires var tn := ClaimRun(handle, answer, |before|, next); after == before + tn.calls && r == tn.outcome
    ensures var t := ClaimRun(handle, answer, |base|, front); after == base + t.calls && r == t.outcome
  {
    var td := ClaimRun(handle, answer, |base|, done);
    var tn := ClaimRun(handle, answer, |before|, next);
    ClaimRunAfterPassed(handle, answer, |base|, |before|, done, next);
    AppendAssociates(base, td.calls, tn.calls);
  }

  /** A walk over `done + next` whose `done` part passed continues with `next` from position `mid`. */
  lemma ClaimRunAfterPassed(handle: Option<HandleId>, answer: nat -> int, start: nat, mid: nat, done: seq<int>, next: seq<int>)
    requires ClaimRun(handle, answer, start, done).outcome == Pass
    requires mid == start + |done|
    ensures var td, tn := ClaimRun(handle, answer, start, done), ClaimRun(handle, answer, mid, next);
      ClaimRun(handle, answer, start, done + next) == ClaimTrace(td.calls + tn.calls, tn.outcome)
  {
    ClaimRunAppend(handle, answer, start, done, next);
  }

  /** Once a walk has failed, whatever is planned after it is never claimed. */
  lemma ClaimRunFailedPrefix(handle: Option<HandleId>, answer: nat -> int, start: nat, front: seq<int>, rest: seq<int>)
    requires ClaimRun(handle, answer, start, front).outcome.Fail?
    ensures ClaimRun(handle, answer, start, front + rest) == ClaimRun(handle, answer, start, front)
  {
    ClaimRunAppend(handle, answer, start, front, rest);
  }

  lemma AppendAssociates<T>(a: seq<T>, b: seq<T>, c: seq<T>)
    ensures (a + b) + c == a + (b + c)
  {
  }

  /** The plan of the first `i + 1` elements extends the plan of the first `i` by element `i`'s. */
  lemma AltSettingPlanStep(alts: seq<AltSetting>, i: nat)
    requires i < |alts|
    ensures AltSettingPlan(alts[..i + 1]) == AltSettingPlan(alts[..i]) + [alts[i].interfaceNumber]
  {
    var front := alts[..i + 1];
    assert front[..|front| - 1] == alts[..i];
  }

  /** The plan of a sequence is the plan of any prefix followed by the plan of the rest. */
  lemma AltSettingPlanCut(alts: seq<AltSetting>, k: nat)
    requires k <= |alts|
    ensures AltSettingPlan(alts) == AltSettingPlan(alts[..k]) + AltSettingPlan(alts[k..])
  {
    assert alts[..k] + alts[k..] == alts;
    AltSettingPlanAppend(alts[..k], alts[k..]);
  }

  /** The plan of the first `i + 1` elements extends the plan of the first `i` by element `i`'s. */
  lemma InterfacePlanStep(interfaces: seq<Interface>, i: nat)
    requires i < |interfaces|
    ensures InterfacePlan(interfaces[..i + 1]) == InterfacePlan(interfaces[..i]) + AltSettingPlan(interfaces[i].altSettings)
  {
    var front := interfaces[..i + 1];
    assert front[..|front| - 1] == interfaces[..i];
  }

  /** The plan of a sequence is the plan of any prefix followed by the plan of the rest. */
  lemma InterfacePlanCut(interfaces: seq<Interface>, k: nat)
    requires k <= |interfaces|
    ensures InterfacePlan(interfaces) == InterfacePlan(interfaces[..k]) + InterfacePlan(interfaces[k..])
  {
    assert interfaces[..k] + interfaces[k..] == interfaces;
    InterfacePlanAppend(interfaces[..k], interfaces[k..]);
  }

  /** The plan of the first `i + 1` elements extends the plan of the first `i` by element `i`'s. */
  lemma ClaimPlanStep(configs: seq<ConfigDescriptor>, i: nat)
    requires i < |configs|
    ensures ClaimPlan(configs[..i + 1]) == ClaimPlan(configs[..i]) + InterfacePlan(configs[i].interfaces)
  {
    var front := configs[..i + 1];
    assert front[..|front| - 1] == configs[..i];
  }

  /** The plan of a sequence is the plan of any prefix followed by the plan of the rest. */
  lemma ClaimPlanCut(configs: seq<ConfigDescriptor>, k: nat)
    requires k <= |configs|
    ensures ClaimPlan(configs) == ClaimPlan(configs[..k]) + ClaimPlan(configs[k..])
  {
    assert configs[..k] + configs[k..] == configs;
    ClaimPlanAppend(configs[..k], configs[k..]);
  }

  // ---------------------------------------------------------------------
  // Device references in the native log.
  // ---------------------------------------------------------------------

  /** References taken on `device` minus references released, over `log`. */
  function RefBalance(log: seq<Call>, device: DeviceId): int {
    if log == [] then 0
    else
      var last := log[|log| - 1];
      RefBalance(log[..|log| - 1], device) +
        (if last == Referenced(Some(device)) then 1
         else if last == Unreferenced(Some(device)) then -1
         else 0)
  }

  /**
   * Releasing `from` and then referencing `to` (what `Ref` issues) moves one
   * reference: `from` loses one, `to` gains one, every other device keeps
   * its balance, and the null pointer counts for no device.
   */
  lemma RefMovesOneReference(log: seq<Call>, from: Option<DeviceId>, to: Option<DeviceId>, device: DeviceId)
    ensures RefBalance(log + [Unreferenced(from), Referenced(to)], device) ==
            RefBalance(log, device) - (if from == Some(device) then 1 else 0) + (if to == Some(device) then 1 else 0)
  {
    var log' := log + [Unreferenced(from), Referenced(to)];
    assert log'[..|log'| - 1] == log + [Unreferenced(from)];
    assert (log + [Unreferenced(from)])[..|log|] == log;
  }

  /**
   * A wrapper built on `d` (which first releases the null device it starts
   * with) and then destroyed leaves every device's balance where it was.
   */
  lemma WrapperLifetimeBalances(log: seq<Call>, d: DeviceId, e: DeviceId)
    ensures RefBalance(log + [Unreferenced(None), Referenced(Some(d))] + [Unreferenced(Some(d))], e) == RefBalance(log, e)
  {
    RefMovesOneReference(log, None, Some(d), e);
    var built := log + [Unreferenced(None), Referenced(Some(d))];
    var destroyed := built + [Unreferenced(Some(d))];
    assert destroyed[..|destroyed| - 1] == built;
  }
}
