/**
 * The part of libusb the device wrapper calls, as an oracle. Nothing of
 * libusb's behaviour is modelled: every call is recorded in `log`, in
 * order, together with the answer libusb gave, and the answer to the call
 * at position k of the log is whatever the oracle functions fixed at
 * construction say for k. A wrapper's contract can therefore state exactly
 * which native calls it issued, with which arguments, in which order, and
 * what it did with each answer.
 */
module Native {
  import opened Wrappers

  type U8 = n: int | 0 <= n < 0x100
  type U16 = n: int | 0 <= n < 0x1_0000
  type U32 = n: int | 0 <= n < 0x1_0000_0000

  /** A non-null `libusb_device *`; the null pointer is `None`. */
  type DeviceId = nat
  /** A non-null `libusb_device_handle *`; the null pointer is `None`. */
  type HandleId = nat

  /** One `libusb_interface_descriptor`, of which only `bInterfaceNumber` is used. */
  datatype AltSetting = AltSetting(interfaceNumber: U8)
  /** A `libusb_interface`: its alternate settings, `altsetting[0 .. num_altsetting)`. */
  datatype Interface = Interface(altSettings: seq<AltSetting>)
  /** A `libusb_config_descriptor`, as `UsbConfigDescriptorWrapper` exposes it. */
  datatype ConfigDescriptor = ConfigDescriptor(configurationValue: U8, interfaces: seq<Interface>)
  /** A `libusb_device_descriptor`, of which only `bNumConfigurations` is used. */
  datatype DeviceDescriptor = DeviceDescriptor(vendorId: U16, productId: U16, numConfigurations: U8)

  /** What `libusb_open` returns, and the handle it writes on success. */
  datatype OpenAnswer = OpenAnswer(ret: int, handle: HandleId)
  /** What `libusb_get_device_descriptor` returns, and the descriptor it fills. */
  datatype DescriptorAnswer = DescriptorAnswer(ret: int, descriptor: DeviceDescriptor)
  /** What `libusb_get_config_descriptor` returns, and the descriptor it hands out. */
  datatype ConfigAnswer = ConfigAnswer(ret: int, config: ConfigDescriptor)
  /** What `libusb_control_transfer` returns, and the bytes it leaves at the start of the buffer. */
  datatype ControlAnswer = ControlAnswer(ret: int, received: seq<bv8>)
  /** What `libusb_bulk_transfer` returns, and the count it writes to `transferred`. */
  datatype BulkAnswer = BulkAnswer(ret: int, transferred: int)

  /** The setup of a control transfer, as the wrapper forwards it. */
  datatype ControlSetup = ControlSetup(requestType: bv8, request: U8, value: U16, index: U16, length: U16, timeout: U32)

  /** One native call and its answer. */
  datatype Call =
    | Referenced(device: Option<DeviceId>)
    | Unreferenced(device: Option<DeviceId>)
    | DescriptorRead(device: Option<DeviceId>, descriptorAnswer: DescriptorAnswer)
    | Opened(device: Option<DeviceId>, openAnswer: OpenAnswer)
    | ControlTransferred(handle: Option<HandleId>, setup: ControlSetup, controlAnswer: ControlAnswer)
    | BulkTransferred(handle: Option<HandleId>, endpoint: bv8, length: int, timeout: U32, bulkAnswer: BulkAnswer)
    | ConfigRead(device: Option<DeviceId>, index: U8, configAnswer: ConfigAnswer)
    | Claimed(handle: Option<HandleId>, interfaceNumber: int, ret: int)

  /**
   * libusb's documented promise for a control transfer: a non-negative
   * return is the number of bytes transferred, at most `length`.
   */
  ghost predicate ControlAnswerWithin(a: ControlAnswer, length: U16) {
    a.ret >= 0 ==> a.ret <= length && |a.received| == a.ret
  }

  /** libusb's documented promise for a bulk transfer: on success, between 0 and `length` bytes moved. */
  ghost predicate BulkAnswerWithin(a: BulkAnswer, length: int) {
    a.ret >= 0 ==> 0 <= a.transferred <= length
  }

  ghost predicate ControlAnswersDocumented(answer: (nat, U16) -> ControlAnswer) {
    forall step: nat, length: U16 :: ControlAnswerWithin(answer(step, length), length)
  }

  ghost predicate BulkAnswersDocumented(answer: (nat, int) -> BulkAnswer) {
    forall step: nat, length: int :: BulkAnswerWithin(answer(step, length), length)
  }

  class Libusb {
    const openAnswer: nat -> OpenAnswer
    const descriptorAnswer: nat -> DescriptorAnswer
    const configAnswer: nat -> ConfigAnswer
    const controlAnswer: (nat, U16) -> ControlAnswer
    const bulkAnswer: (nat, int) -> BulkAnswer
    const claimAnswer: nat -> int
    /** Every native call issued so far, oldest first. */
    var log: seq<Call>

    /** The answers keep within the ranges libusb documents. */
    ghost predicate Documented() {
      ControlAnswersDocumented(controlAnswer) && BulkAnswersDocumented(bulkAnswer)
    }

    constructor (openAnswer: nat -> OpenAnswer, descriptorAnswer: nat -> DescriptorAnswer,
                 configAnswer: nat -> ConfigAnswer, controlAnswer: (nat, U16) -> ControlAnswer,
                 bulkAnswer: (nat, int) -> BulkAnswer, claimAnswer: nat -> int)
      requires ControlAnswersDocumented(controlAnswer) && BulkAnswersDocumented(bulkAnswer)
      ensures Documented() && log == []
      ensures this.openAnswer == openAnswer && this.descriptorAnswer == descriptorAnswer
      ensures this.configAnswer == configAnswer && this.controlAnswer == controlAnswer
      ensures this.bulkAnswer == bulkAnswer && this.claimAnswer == claimAnswer
    {
      this.openAnswer := openAnswer;
      this.descriptorAnswer := descriptorAnswer;
      this.configAnswer := configAnswer;
      this.controlAnswer := controlAnswer;
      this.bulkAnswer := bulkAnswer;
      this.claimAnswer := claimAnswer;
      log := [];
    }

    /** `libusb_ref_device` */
    method RefDevice(device: Option<DeviceId>)
      modifies this
      ensures log == old(log) + [Referenced(device)]
    {
      log := log + [Referenced(device)];
    }

    /** `libusb_unref_device` */
    method UnrefDevice(device: Option<DeviceId>)
      modifies this
      ensures log == old(log) + [Unreferenced(device)]
    {
      log := log + [Unreferenced(device)];
    }

    /** `libusb_get_device_descriptor` */
    method GetDeviceDescriptor(device: Option<DeviceId>) returns (a: DescriptorAnswer)
      modifies this
      ensures a == descriptorAnswer(|old(log)|)
      ensures log == old(log) + [DescriptorRead(device, a)]
    {
      a := descriptorAnswer(|log|);
      log := log + [DescriptorRead(device, a)];
    }

    /** `libusb_open` */
    method Open(device: Option<DeviceId>) returns (a: OpenAnswer)
      modifies this
      ensures a == openAnswer(|old(log)|)
      ensures log == old(log) + [Opened(device, a)]
    {
      a := openAnswer(|log|);
      log := log + [Opened(device, a)];
    }

    /** `libusb_control_transfer` */
    method ControlTransfer(handle: Option<HandleId>, setup: ControlSetup) returns (a: ControlAnswer)
      requires Documented()
      modifies this
      ensures a == controlAnswer(|old(log)|, setup.length)
      ensures ControlAnswerWithin(a, setup.length)
      ensures log == old(log) + [ControlTransferred(handle, setup, a)]
    {
      a := controlAnswer(|log|, setup.length);
      log := log + [ControlTransferred(handle, setup, a)];
    }

    /** `libusb_bulk_transfer` */
    method BulkTransfer(handle: Option<HandleId>, endpoint: bv8, length: int, timeout: U32) returns (a: BulkAnswer)
      requires Documented()
      modifies this
      ensures a == bulkAnswer(|old(log)|, length)
      ensures BulkAnswerWithin(a, length)
      ensures log == old(log) + [BulkTransferred(handle, endpoint, length, timeout, a)]
    {
      a := bulkAnswer(|log|, length);
      log := log + [BulkTransferred(handle, endpoint, length, timeout, a)];
    }

    /** `libusb_get_config_descriptor` */
    method GetConfigDescriptor(device: Option<DeviceId>, index: U8) returns (a: ConfigAnswer)
      modifies this
      ensures a == configAnswer(|old(log)|)
      ensures log == old(log) + [ConfigRead(device, index, a)]
    {
      a := configAnswer(|log|);
      log := log + [ConfigRead(device, index, a)];
    }

    /** `libusb_claim_interface` */
    method ClaimInterface(handle: Option<HandleId>, interfaceNumber: int) returns (ret: int)
      modifies this
      ensures ret == claimAnswer(|old(log)|)
      ensures log == old(log) + [Claimed(handle, interfaceNumber, ret)]
    {
      ret := claimAnswer(|log|);
      log := log + [Claimed(handle, interfaceNumber, ret)];
    }
  }
}
