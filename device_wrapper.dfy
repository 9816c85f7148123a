/**
 * `UsbDeviceWrapper`: a referenced libusb device and, once opened, a shared
 * open handle. Every libusb call goes to the `Native.Libusb` oracle, so each
 * contract states exactly which native calls an operation issues, in which
 * order, and how it turns their answers into a result or a thrown error.
 */
module DeviceWrapper {
  import opened Wrappers
  import opened Native
  import opened DeviceSpec
  import RequestOptions

  class UsbDeviceWrapper {
    /** The libusb library every wrapper of a program calls into. */
    const lib: Libusb
    /** `_wrapped_obj`; `None` is the null pointer. */
    var device: Option<DeviceId>
    /** `_device_handle`; `None` is an empty `shared_ptr`. Copies share the same handle. */
    var handle: Option<HandleId>

    /** The default constructor: no device, no open handle. */
    constructor (lib: Libusb)
      ensures this.lib == lib && device == None && handle == None
    {
      this.lib := lib;
      device := None;
      handle := None;
    }

    /** `UsbDeviceWrapper(libusb_device *)`: takes one reference on `d`. */
    constructor FromDevice(lib: Libusb, d: Option<DeviceId>)
      modifies lib
      ensures this.lib == lib && device == d && handle == None
      ensures lib.log == old(lib.log) + [Unreferenced(None), Referenced(d)]
    {
      this.lib := lib;
      device := None;
      handle := None;
      new;
      Ref(d);
    }

    /** The copy constructor, which assigns `other` to a fresh, empty wrapper. */
    constructor Copy(other: UsbDeviceWrapper)
      modifies other.lib
      ensures lib == other.lib && device == other.device && handle == other.handle
      ensures lib.log == old(other.lib.log) + [Unreferenced(None), Referenced(other.device)]
    {
      lib := other.lib;
      device := None;
      handle := None;
      new;
      Assign(other);
    }

    /** The destructor: releases the device; the handle is dropped with the object. */
    method Dispose()
      modifies this, lib
      ensures device == None && handle == None
      ensures lib.log == old(lib.log) + [Unreferenced(old(device))]
    {
      Unref();
      handle := None;
    }

    /** `operator=`: refer to `other`'s device and share its open handle. */
    method Assign(other: UsbDeviceWrapper)
      requires other.lib == lib
      modifies this`device, this`handle, lib
      ensures device == old(other.device) && handle == old(other.handle)
      ensures lib.log == old(lib.log) + [Unreferenced(old(device)), Referenced(old(other.device))]
    {
      Ref(other.device);
      handle := other.handle;
    }

    /** Releases the device held before, then refers to `d` and takes one reference on it. */
    method Ref(d: Option<DeviceId>)
      modifies this`device, lib
      ensures device == d
      ensures lib.log == old(lib.log) + [Unreferenced(old(device)), Referenced(d)]
      ensures forall e: DeviceId :: (RefBalance(lib.log, e) ==
        RefBalance(old(lib.log), e) - (if old(device) == Some(e) then 1 else 0) + (if d == Some(e) then 1 else 0))
    {
      Unref();
      device := d;
      lib.RefDevice(d);
      forall e: DeviceId
        ensures RefBalance(lib.log, e) ==
          RefBalance(old(lib.log), e) - (if old(device) == Some(e) then 1 else 0) + (if d == Some(e) then 1 else 0)
      {
        RefMovesOneReference(old(lib.log), old(device), d, e);
      }
    }

    /** Releases the device reference and forgets the device. */
    method Unref()
      modifies this`device, lib
      ensures device == None
      ensures lib.log == old(lib.log) + [Unreferenced(old(device))]
    {
      lib.UnrefDevice(device);
      device := None;
    }

    /** Reads the device descriptor; needs no open handle. A negative answer is thrown. */
    method GetDescriptor() returns (r: Result<DeviceDescriptor, UsbError>)
      modifies lib
      ensures var a := lib.descriptorAnswer(|old(lib.log)|);
        && lib.log == old(lib.log) + [DescriptorRead(device, a)]
        && (a.ret < 0 ==> r == Failure(NativeError(a.ret)))
        && (a.ret >= 0 ==> r == Success(a.descriptor))
    {
      var a := lib.GetDeviceDescriptor(device);
      if a.ret < 0 {
        return Failure(NativeError(a.ret));
      }
      return Success(a.descriptor);
    }

    /**
     * Opens the device once: with a handle already held nothing is called
     * and nothing changes; otherwise a non-zero answer of the native open
     * is thrown and the handle stays absent, and a zero answer installs the
     * new handle.
     */
    method Open() returns (r: Outcome<UsbError>)
      modifies this`handle, lib
      ensures old(handle).Some? ==> handle == old(handle) && lib.log == old(lib.log) && r == Pass
      ensures old(handle).None? ==>
        var a := lib.openAnswer(|old(lib.log)|);
        && lib.log == old(lib.log) + [Opened(device, a)]
        && (a.ret != 0 ==> r == Fail(NativeError(a.ret)) && handle == None)
        && (a.ret == 0 ==> r == Pass && handle == Some(a.handle))
    {
      if handle.Some? {
        return Pass;
      }
      var a := lib.Open(device);
      if a.ret != 0 {
        return Fail(NativeError(a.ret));
      }
      handle := Some(a.handle);
      return Pass;
    }

    /**
     * Forwards a control transfer and passes the native result through
     * without throwing: negative is an error code, otherwise the number of
     * bytes transferred, which is 0 when there is no data stage.
     */
    method ControlTransfer(requestType: bv8, request: U8, value: U16, index: U16, length: U16, timeout: U32)
      returns (r: int, received: seq<bv8>)
      requires lib.Documented()
      modifies lib
      ensures var a := lib.controlAnswer(|old(lib.log)|, length);
        && lib.log == old(lib.log) + [ControlTransferred(handle, ControlSetup(requestType, request, value, index, length, timeout), a)]
        && r == a.ret && received == a.received
      ensures r >= 0 ==> r <= length && |received| == r
      ensures length == 0 && r >= 0 ==> r == 0
    {
      var a := lib.ControlTransfer(handle, ControlSetup(requestType, request, value, index, length, timeout));
      r, received := a.ret, a.received;
    }

    /**
     * Issues Get Status (request byte 0x80, two bytes, no timeout); throws
     * unless exactly two bytes were read, and otherwise returns them as a
     * little-endian word.
     */
    method GetStatus() returns (r: Result<bv16, UsbError>)
      requires lib.Documented()
      modifies lib
      ensures var a := lib.controlAnswer(|old(lib.log)|, 2);
        && lib.log == old(lib.log) + [ControlTransferred(handle, ControlSetup(0x80, GetStatusRequest, 0, 0, 2, 0), a)]
        && (a.ret != 2 ==> r == Failure(StatusReadFailed))
        && (a.ret == 2 ==> |a.received| == 2 && r == Success(LittleEndianWord(a.received[0], a.received[1])))
      ensures r.Success? ==>
        var a := lib.controlAnswer(|old(lib.log)|, 2);
        r.value as int == a.received[0] as int + 0x100 * a.received[1] as int
    {
      var options := new RequestOptions.UsbRequestOptions.Make(
        RequestOptions.DeviceToHost, RequestOptions.Standard, RequestOptions.Device);
      RequestOptions.GetStatusRequestByte();
      var haveRead, statusBuf := ControlTransfer(options.ToByte(), GetStatusRequest, 0, 0, 2, 0);
      if haveRead != 2 {
        return Failure(StatusReadFailed);
      }
      LittleEndianValue(statusBuf[0], statusBuf[1]);
      return Success(LittleEndianWord(statusBuf[0], statusBuf[1]));
    }

    /** Forwards a bulk transfer; a negative answer is thrown, otherwise the count transferred is returned. */
    method BulkTransfer(endpoint: bv8, length: int, timeout: U32) returns (r: Result<int, UsbError>)
      requires lib.Documented()
      modifies lib
      ensures var a := lib.bulkAnswer(|old(lib.log)|, length);
        && lib.log == old(lib.log) + [BulkTransferred(handle, endpoint, length, timeout, a)]
        && (a.ret < 0 ==> r == Failure(NativeError(a.ret)))
        && (a.ret >= 0 ==> r == Success(a.transferred))
      ensures r.Success? ==> 0 <= r.value <= length
      ensures length < 0 ==> r.Failure?
    {
      var a := lib.BulkTransfer(handle, endpoint, length, timeout);
      if a.ret < 0 {
        return Failure(NativeError(a.ret));
      }
      return Success(a.transferred);
    }

    /**
     * Reads the device descriptor (a failure there is thrown), then fetches
     * configurations 0 .. bNumConfigurations-1 in order and keeps exactly
     * those whose fetch returned 0, skipping the others.
     */
    method GetConfigDescriptorList() returns (r: Result<seq<ConfigDescriptor>, UsbError>)
      modifies lib
      ensures var t := ConfigListRun(device, lib.descriptorAnswer, lib.configAnswer, |old(lib.log)|);
        lib.log == old(lib.log) + t.calls && r == t.result
    {
      var descriptor := GetDescriptor();
      if descriptor.Failure? {
        return Failure(descriptor.error);
      }
      var count := descriptor.value.numConfigurations;
      ghost var base := lib.log;
      var configList := [];
      for i := 0 to count
        invariant lib.log == base + ConfigReads(device, lib.configAnswer, |base|, i)
        invariant configList == SuccessfulConfigs(ConfigReads(device, lib.configAnswer, |base|, i))
      {
        var a := lib.GetConfigDescriptor(device, i);
        ConfigReadsStep(device, lib.configAnswer, base, i);
        if a.ret != 0 {
          continue;
        }
        configList := configList + [a.config];
      }
      AppendAssociates(old(lib.log), [DescriptorRead(device, lib.descriptorAnswer(|old(lib.log)|))],
                       ConfigReads(device, lib.configAnswer, |base|, count));
      return Success(configList);
    }

    /** `ClaimInterface(int)`: one native claim; a non-zero answer is thrown. */
    method ClaimInterfaceNumber(interfaceNumber: int) returns (r: Outcome<UsbError>)
      modifies lib
      ensures var ret := lib.claimAnswer(|old(lib.log)|);
        && lib.log == old(lib.log) + [Claimed(handle, interfaceNumber, ret)]
        && r == if ret != 0 then Fail(NativeError(ret)) else Pass
      ensures var t := ClaimRun(handle, lib.claimAnswer, |old(lib.log)|, [interfaceNumber]);
        lib.log == old(lib.log) + t.calls && r == t.outcome
    {
      var ret := lib.ClaimInterface(handle, interfaceNumber);
      if ret != 0 {
        return Fail(NativeError(ret));
      }
      return Pass;
    }

    /** `ClaimInterface(libusb_interface const &)`: claims each alternate setting's number, in order. */
    method ClaimAltSettings(iface: Interface) returns (r: Outcome<UsbError>)
      modifies lib
      ensures var t := ClaimRun(handle, lib.claimAnswer, |old(lib.log)|, AltSettingPlan(iface.altSettings));
        lib.log == old(lib.log) + t.calls && r == t.outcome
    {
      var alts := iface.altSettings;
      ghost var base := lib.log;
      for i := 0 to |alts|
        invariant var t := ClaimRun(handle, lib.claimAnswer, |base|, AltSettingPlan(alts[..i]));
          lib.log == base + t.calls && t.outcome == Pass
      {
        ghost var done, next, rest := AltSettingPlan(alts[..i]), [alts[i].interfaceNumber], AltSettingPlan(alts[i + 1..]);
        ghost var before := lib.log;
        r := ClaimInterfaceNumber(alts[i].interfaceNumber);
        AltSettingPlanStep(alts, i);
        AltSettingPlanCut(alts, i + 1);
        ClaimLoopStep(handle, lib.claimAnswer, base, before, lib.log, done, next, AltSettingPlan(alts[..i + 1]), r);
        if r.Fail? {
          ClaimRunFailedPrefix(handle, lib.claimAnswer, |base|, AltSettingPlan(alts[..i + 1]), rest);
          return;
        }
      }
      assert alts[..|alts|] == alts;
      r := Pass;
    }

    /** `ClaimInterface(UsbConfigDescriptorWrapper &)`: claims each interface of `config`, in order. */
    method ClaimConfigInterfaces(config: ConfigDescriptor) returns (r: Outcome<UsbError>)
      modifies lib
      ensures var t := ClaimRun(handle, lib.claimAnswer, |old(lib.log)|, InterfacePlan(config.interfaces));
        lib.log == old(lib.log) + t.calls && r == t.outcome
    {
      var interfaces := config.interfaces;
      ghost var base := lib.log;
      for i := 0 to |interfaces|
        invariant var t := ClaimRun(handle, lib.claimAnswer, |base|, InterfacePlan(interfaces[..i]));
          lib.log == base + t.calls && t.outcome == Pass
      {
        ghost var done, next, rest := InterfacePlan(interfaces[..i]), AltSettingPlan(interfaces[i].altSettings), InterfacePlan(interfaces[i + 1..]);
        ghost var before := lib.log;
        r := ClaimAltSettings(interfaces[i]);
        InterfacePlanStep(interfaces, i);
        InterfacePlanCut(interfaces, i + 1);
        ClaimLoopStep(handle, lib.claimAnswer, base, before, lib.log, done, next, InterfacePlan(interfaces[..i + 1]), r);
        if r.Fail? {
          ClaimRunFailedPrefix(handle, lib.claimAnswer, |base|, InterfacePlan(interfaces[..i + 1]), rest);
          return;
        }
      }
      assert interfaces[..|interfaces|] == interfaces;
      r := Pass;
    }

    /**
     * `ClaimInterface()`: lists the configurations (a failure there is
     * thrown), then claims every interface of every listed configuration in
     * configuration, interface, alternate-setting order, stopping at the
     * first failed claim.
     */
    method ClaimInterface() returns (r: Outcome<UsbError>)
      modifies lib
      ensures var list := ConfigListRun(device, lib.descriptorAnswer, lib.configAnswer, |old(lib.log)|);
        if list.result.Failure? then
          lib.log == old(lib.log) + list.calls && r == Fail(list.result.error)
        else
          var t := ClaimRun(handle, lib.claimAnswer, |old(lib.log)| + |list.calls|, ClaimPlan(list.result.value));
          lib.log == old(lib.log) + list.calls + t.calls && r == t.outcome
    {
      var list := GetConfigDescriptorList();
      if list.Failure? {
        return Fail(list.error);
      }
      r := ClaimConfigs(list.value);
    }

    /** The loop of `ClaimInterface()`: claims each listed configuration, in order. */
    method ClaimConfigs(configs: seq<ConfigDescriptor>) returns (r: Outcome<UsbError>)
      modifies lib
      ensures var t := ClaimRun(handle, lib.claimAnswer, |old(lib.log)|, ClaimPlan(configs));
        lib.log == old(lib.log) + t.calls && r == t.outcome
    {
      ghost var base := lib.log;
      for i := 0 to |configs|
        invariant var t := ClaimRun(handle, lib.claimAnswer, |base|, ClaimPlan(configs[..i]));
          lib.log == base + t.calls && t.outcome == Pass
      {
        ghost var done, next, rest := ClaimPlan(configs[..i]), InterfacePlan(configs[i].interfaces), ClaimPlan(configs[i + 1..]);
        ghost var before := lib.log;
        r := ClaimConfigInterfaces(configs[i]);
        ClaimPlanStep(configs, i);
        ClaimPlanCut(configs, i + 1);
        ClaimLoopStep(handle, lib.claimAnswer, base, before, lib.log, done, next, ClaimPlan(configs[..i + 1]), r);
        if r.Fail? {
          ClaimRunFailedPrefix(handle, lib.claimAnswer, |base|, ClaimPlan(configs[..i + 1]), rest);
          return;
        }
      }
      assert configs[..|configs|] == configs;
      r := Pass;
    }
  }
}
