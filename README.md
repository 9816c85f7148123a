# libusb-wrapper: the request-options byte and the device wrapper

A Dafny model of the two pieces of logic in the libusb-wrapper C++ binding.

- **`USBRequestOptions`** is the `bmRequestType` byte of a USB control request, from section 9.3.1 and Table 9-2 of the USB 2.0 Specification. It is one byte with three disjoint fields:
  - recipient: bits 0-4;
  - request type: bits 5-6;
  - data direction: bit 7.

  The model is a class with that one byte as its field (`RequestOptions.UsbRequestOptions`). Its getters and setters are proved against pure field-select and field-update functions. Lemmas cover the layout: disjoint masks, round trips, nothing else changes, idempotence, and the Get Status byte 0x80.
- **`UsbDeviceWrapper`** is a class whose two fields are updated in place: the referenced device and the shared open handle (`DeviceWrapper.UsbDeviceWrapper`). libusb itself is not modelled. Every native call goes to an oracle object, `Native.Libusb`, which does two things:
  - it records the call, with its answer, in a log;
  - it answers from functions fixed at construction, indexed by the call's position in that log.

  Each wrapper method therefore states exactly which native calls it issues, in which order, and what it does with each answer. The exception is `libusb_close`, which the handle's deleter issues (see "## Left out"). A C++ exception becomes a `Failure`/`Fail` value carrying a `UsbError`.

The pure specifications live in module `DeviceSpec`:
- the little-endian status word;
- the endpoint byte layout;
- `ConfigListRun`, the configuration list that survives its fetches;
- `ClaimPlan` and `ClaimRun`, the claim walk in configuration, interface and alternate-setting order that stops at the first failure;
- `RefBalance`, the reference balance a device has over the log.

Each loop of the wrapper carries an invariant that ties the log so far to these functions.

Files: `wrappers.dfy` (result types), `request_options.dfy`, `native.dfy` (the libusb oracle), `device_spec.dfy` and `device_wrapper.dfy`.

## Model

| member | source | states |
|---|---|---|
| RequestOptions.MasksPartitionByte | include/libusb-wrapper/USBRequestOptions.h:16-38 | The recipient, request-type and direction masks are pairwise disjoint and together cover all eight bits. |
| RequestOptions.EnumeratorsMatchUsbTable | include/libusb-wrapper/USBRequestOptions.h:46-97 | The enumerators have the Table 9-2 values: recipients 0-3, request types 0x00/0x20/0x40, directions 0x00/0x80. Each also lies inside its own mask, through its subset type. |
| RequestOptions.Encode | include/libusb-wrapper/USBRequestOptions.h:113 | The byte built from (direction, request type, recipient) reads back each of the three values. |
| RequestOptions.EncodeOfFields | include/libusb-wrapper/USBRequestOptions.h:119 | Every byte is the OR of its three field values, so the conversion to `uint8_t` loses nothing. |
| RequestOptions.EncodeInjective | include/libusb-wrapper/USBRequestOptions.h:113 | Two different triples never give the same byte. |
| RequestOptions.RecipientsDifferOnlyInLowBits | include/libusb-wrapper/USBRequestOptions.h:16-20 | Changing only the recipient changes only bits 0-4 of the byte. |
| RequestOptions.WithDirection | include/libusb-wrapper/USBRequestOptions.h:122 | After setting the direction, the direction reads back as set. The request type, the recipient and every bit outside bit 7 are unchanged. |
| RequestOptions.WithRequestType | include/libusb-wrapper/USBRequestOptions.h:125 | After setting the request type, it reads back as set. The direction, the recipient and every bit outside bits 5-6 are unchanged. |
| RequestOptions.WithRecipient | include/libusb-wrapper/USBRequestOptions.h:128 | After setting the recipient, it reads back as set. The direction, the request type and every bit outside bits 0-4 are unchanged. |
| RequestOptions.SetDirectionIdempotent | include/libusb-wrapper/USBRequestOptions.h:122 | Setting the same direction twice is the same as setting it once. |
| RequestOptions.SetRequestTypeIdempotent | include/libusb-wrapper/USBRequestOptions.h:125 | Setting the same request type twice is the same as setting it once. |
| RequestOptions.SetRecipientIdempotent | include/libusb-wrapper/USBRequestOptions.h:128 | Setting the same recipient twice is the same as setting it once. |
| RequestOptions.SetDirectionToOwnValue | include/libusb-wrapper/USBRequestOptions.h:121-122 | Setting the direction to what the getter returns leaves the byte unchanged. |
| RequestOptions.SetRequestTypeToOwnValue | include/libusb-wrapper/USBRequestOptions.h:124-125 | Setting the request type to what the getter returns leaves the byte unchanged. |
| RequestOptions.SetRecipientToOwnValue | include/libusb-wrapper/USBRequestOptions.h:127-128 | Setting the recipient to what the getter returns leaves the byte unchanged. |
| RequestOptions.SettersBuildEncoding | include/libusb-wrapper/USBRequestOptions.h:113-128 | From any starting byte, setting all three fields, in either order, gives the constructor's byte for those values. |
| RequestOptions.GetStatusRequestByte | include/libusb-wrapper/UsbDeviceWrapper.cpp:109-113 | (DeviceToHost, Standard, Device) encodes to 0x80. |
| RequestOptions.UsbRequestOptions.constructor | include/libusb-wrapper/USBRequestOptions.h:105 | A default-constructed option has byte 0, which reads back as HostToDevice, Standard, Device. |
| RequestOptions.UsbRequestOptions.Make | include/libusb-wrapper/USBRequestOptions.h:113 | The three-argument constructor stores the encoding of its arguments, and each getter returns its argument. |
| RequestOptions.UsbRequestOptions.ToByte | include/libusb-wrapper/USBRequestOptions.h:119 | `operator uint8_t` yields the OR of the three current field values. |
| RequestOptions.UsbRequestOptions.GetDataDirection | include/libusb-wrapper/USBRequestOptions.h:121 | Returns bit 7 of the byte, and changes nothing. |
| RequestOptions.UsbRequestOptions.SetDataDirection | include/libusb-wrapper/USBRequestOptions.h:122 | The new byte is the old byte with only the direction field replaced. |
| RequestOptions.UsbRequestOptions.GetRequestType | include/libusb-wrapper/USBRequestOptions.h:124 | Returns bits 5-6 of the byte, and changes nothing. |
| RequestOptions.UsbRequestOptions.SetRequestType | include/libusb-wrapper/USBRequestOptions.h:125 | The new byte is the old byte with only the request-type field replaced. |
| RequestOptions.UsbRequestOptions.GetRecipientType | include/libusb-wrapper/USBRequestOptions.h:127 | Returns bits 0-4 of the byte, and changes nothing. |
| RequestOptions.UsbRequestOptions.SetRecipientType | include/libusb-wrapper/USBRequestOptions.h:128 | The new byte is the old byte with only the recipient field replaced. |
| DeviceSpec.LittleEndianWord | include/libusb-wrapper/UsbDeviceWrapper.cpp:128 | The status word's low byte is the first byte read and its high byte is the second. |
| DeviceSpec.LittleEndianValue | include/libusb-wrapper/UsbDeviceWrapper.cpp:128 | As a number, the status word is `buf[0] + 256 * buf[1]`, so it lies in 0..65535. |
| DeviceSpec.WordFromItsBytes | include/libusb-wrapper/UsbDeviceWrapper.h:66-68 | Every 16-bit word is assembled from its own two bytes, so the little-endian assembly loses nothing. |
| DeviceSpec.EndpointByte | include/libusb-wrapper/UsbDeviceWrapper.h:71-73 | The byte made from a direction (top bit, 1 = device to host) and a 7-bit address reads back both. |
| DeviceSpec.EndpointSplitJoin | include/libusb-wrapper/UsbDeviceWrapper.h:71-73 | Splitting an endpoint byte into direction and address and joining them again gives the same byte. |
| DeviceSpec.ConfigReads | include/libusb-wrapper/UsbDeviceWrapper.cpp:154-157 | Fetching configurations issues exactly one fetch per index below the count. |
| DeviceSpec.ConfigReadsAt | include/libusb-wrapper/UsbDeviceWrapper.cpp:154-157 | The i-th fetch is of configuration index i, and it carries the answer of its own log position. |
| DeviceSpec.ConfigListRun | include/libusb-wrapper/UsbDeviceWrapper.cpp:150-169 | The listing first reads the device descriptor, and fails exactly when that read is negative. Otherwise it issues one fetch per announced configuration and keeps at most `bNumConfigurations` configurations. |
| DeviceSpec.SuccessfulConfigsLength | include/libusb-wrapper/UsbDeviceWrapper.cpp:158-165 | There is one kept configuration per successful fetch, and never more than there were fetches. |
| DeviceSpec.SuccessfulConfigsInOrder | include/libusb-wrapper/UsbDeviceWrapper.cpp:154-166 | The j-th kept configuration is the one returned by the j-th successful fetch, and kept positions strictly increase. |
| DeviceSpec.SuccessfulPositionsComplete | include/libusb-wrapper/UsbDeviceWrapper.cpp:158-165 | No successful fetch is skipped. |
| DeviceSpec.SuccessfulConfigsSnoc | include/libusb-wrapper/UsbDeviceWrapper.cpp:158-165 | One more fetch appends its configuration exactly when the fetch answered 0. |
| DeviceSpec.AltSettingPlan | include/libusb-wrapper/UsbDeviceWrapper.cpp:191-195 | An interface contributes one claim per alternate setting. |
| DeviceSpec.AltSettingPlanAppend | include/libusb-wrapper/UsbDeviceWrapper.cpp:191-195 | The claims for a concatenation of alternate settings are the claims for each part, in order. |
| DeviceSpec.InterfacePlanAppend | include/libusb-wrapper/UsbDeviceWrapper.cpp:182-185 | The claims for a concatenation of interfaces are the claims for each part, in order. |
| DeviceSpec.ClaimPlanAppend | include/libusb-wrapper/UsbDeviceWrapper.cpp:174-177 | The claims for a concatenation of configurations are the claims for each part, in order. |
| DeviceSpec.ClaimRun | include/libusb-wrapper/UsbDeviceWrapper.cpp:199-207 | A claim walk issues at most one claim per planned number, and exactly one per number when it passes. |
| DeviceSpec.ClaimRunFollowsPlan | include/libusb-wrapper/UsbDeviceWrapper.cpp:171-207 | The claims issued are a prefix of the plan, in plan order, each with the answer of its log position. |
| DeviceSpec.ClaimRunStopsAtFirstFailure | include/libusb-wrapper/UsbDeviceWrapper.cpp:171-207 | Every claim before the last one issued succeeded. The walk passes exactly when every planned claim was issued and all succeeded. Otherwise it throws the non-zero code of the last claim issued. |
| DeviceSpec.ClaimRunAppend | include/libusb-wrapper/UsbDeviceWrapper.cpp:174-177 | Claiming `a + b` is claiming `a` and, only if that passed, claiming `b` from the next log position. |
| DeviceSpec.ClaimRunFailedPrefix | include/libusb-wrapper/UsbDeviceWrapper.cpp:201-206 | After a failed claim, nothing planned later is claimed. |
| DeviceSpec.RefMovesOneReference | include/libusb-wrapper/UsbDeviceWrapper.cpp:31-36 | Releasing the old device and referencing the new one moves one reference. Every other device keeps its balance, and the null pointer counts for none. |
| DeviceSpec.WrapperLifetimeBalances | include/libusb-wrapper/UsbDeviceWrapper.cpp:4-17 | Constructing a wrapper on a device and destroying it leaves every device's reference balance unchanged. |
| DeviceWrapper.UsbDeviceWrapper.constructor | include/libusb-wrapper/UsbDeviceWrapper.h:26-28 | A default-constructed wrapper refers to no device and holds no handle. |
| DeviceWrapper.UsbDeviceWrapper.FromDevice | include/libusb-wrapper/UsbDeviceWrapper.cpp:4-7 | Construction on a device releases the null device, then takes one reference on the given device. |
| DeviceWrapper.UsbDeviceWrapper.Copy | include/libusb-wrapper/UsbDeviceWrapper.cpp:9-12 | A copy refers to the same device and shares the same handle. It takes one reference on the device. |
| DeviceWrapper.UsbDeviceWrapper.Dispose | include/libusb-wrapper/UsbDeviceWrapper.cpp:14-17 | Destruction releases the held device; in the model it issues no other native call (the handle's closing is not modelled). |
| DeviceWrapper.UsbDeviceWrapper.Assign | include/libusb-wrapper/UsbDeviceWrapper.cpp:19-24 | After assignment the target refers to the source's device and shares its handle. The old device was released first. |
| DeviceWrapper.UsbDeviceWrapper.Ref | include/libusb-wrapper/UsbDeviceWrapper.cpp:31-36 | Releases the previously held device, then refers to and references `d`. The reference balance moves by exactly one for each. |
| DeviceWrapper.UsbDeviceWrapper.Unref | include/libusb-wrapper/UsbDeviceWrapper.cpp:41-45 | Releases the held device and always leaves the device null. |
| DeviceWrapper.UsbDeviceWrapper.GetDescriptor | include/libusb-wrapper/UsbDeviceWrapper.cpp:47-59 | One descriptor read, which needs no open handle. A negative answer is thrown; otherwise the descriptor is returned. |
| DeviceWrapper.UsbDeviceWrapper.Open | include/libusb-wrapper/UsbDeviceWrapper.cpp:61-83 | With a handle already held: no native call and no change. Otherwise a non-zero answer is thrown and leaves the handle absent; zero installs the new handle. |
| DeviceWrapper.UsbDeviceWrapper.ControlTransfer | include/libusb-wrapper/UsbDeviceWrapper.cpp:85-103 | Forwards the request unchanged and passes the native result through without throwing. As the header documents, negative means failure and a non-negative result with no buffer is 0. Within libusb's documented range, assumed through `Libusb.Documented`, a non-negative result is the count of bytes received and at most `length`. |
| DeviceWrapper.UsbDeviceWrapper.GetStatus | include/libusb-wrapper/UsbDeviceWrapper.cpp:105-129 | Issues one control transfer: request byte 0x80, GET_STATUS, two bytes, no timeout. Unless exactly 2 bytes were read it throws. Otherwise it returns the little-endian word, whose value is `buf[0] + 256 * buf[1]`. |
| DeviceWrapper.UsbDeviceWrapper.BulkTransfer | include/libusb-wrapper/UsbDeviceWrapper.cpp:131-148 | One bulk transfer. A negative answer is thrown; otherwise it returns the transferred count. As the header documents it is at most `length`; that it is not negative comes from libusb's documented range, assumed through `Libusb.Documented`. A negative `length` therefore always throws. |
| DeviceWrapper.UsbDeviceWrapper.GetConfigDescriptorList | include/libusb-wrapper/UsbDeviceWrapper.cpp:150-169 | The native calls issued and the list returned are those of `ConfigListRun`: fetches in index order, failed fetches skipped, a failed descriptor read thrown. |
| DeviceWrapper.UsbDeviceWrapper.ClaimInterfaceNumber | include/libusb-wrapper/UsbDeviceWrapper.cpp:199-207 | One native claim. A non-zero answer is thrown. |
| DeviceWrapper.UsbDeviceWrapper.ClaimAltSettings | include/libusb-wrapper/UsbDeviceWrapper.cpp:188-197 | The log grows by the claim walk over the interface's alternate settings, in order, and the result is that walk's outcome. |
| DeviceWrapper.UsbDeviceWrapper.ClaimConfigInterfaces | include/libusb-wrapper/UsbDeviceWrapper.cpp:180-186 | The log grows by the claim walk over the configuration's interfaces, in order, and the result is that walk's outcome. |
| DeviceWrapper.UsbDeviceWrapper.ClaimConfigs | include/libusb-wrapper/UsbDeviceWrapper.cpp:174-177 | The log grows by the claim walk over the listed configurations, in order, and the result is that walk's outcome. |
| DeviceWrapper.UsbDeviceWrapper.ClaimInterface | include/libusb-wrapper/UsbDeviceWrapper.cpp:171-178 | Lists the configurations and throws if that fails. Otherwise it claims every interface number in configuration, interface and alternate-setting order, stopping at the first failed claim. |

## Left out

- The libusb functions themselves: their answers are arbitrary functions of the call's log position. Only the ranges libusb documents for control and bulk results are assumed, through `Libusb.Documented`.
- `libusb_close` and the `shared_ptr` deleter: the handle is only present or absent, and copies share it. When the last owner closes it is not modelled.
- DeviceWrapper.UsbDeviceWrapper.Dispose: when this wrapper is the last owner of the open handle, destruction also drops the `shared_ptr`, whose deleter calls `libusb_close` (UsbDeviceWrapper.cpp:76-82). The model does not count the handle's owners, so it does not log that call.
- DeviceWrapper.UsbDeviceWrapper.Assign: `_device_handle = other._device_handle` (UsbDeviceWrapper.cpp:22) drops this wrapper's old `shared_ptr`. When this wrapper was the last owner of that handle, the deleter calls `libusb_close` on it (UsbDeviceWrapper.cpp:76-82) after the unref and ref calls. The model does not count the handle's owners, so Assign's log has only the unref and the ref.
- Console logging and `UsbErrorCodeToString`: an exception carries the native code, or `StatusReadFailed` for the Get Status length check, and no message text.
- Buffer contents and timeouts: a control transfer reports only the bytes the device returned, and only `GetStatus` reads them. A bulk transfer moves no data in the model. Timeouts are forwarded but have no meaning.
- "No buffer" for `ControlTransfer` is modelled as `length == 0`; the pointer itself is not.
- The `ControlTransfer` request parameter is `base::usb::RequestTypeOptions` in the header and `USBRequestOptions` in the implementation. It is modelled as the byte `USBRequestOptions` converts to.
- The code does not follow the documented rule that transfers need an open device. A null handle is forwarded to libusb as it is, so the model passes `None` through and imposes no precondition.
- `UsbConfigDescriptorWrapper` is not part of this model. A configuration is its list of interfaces: `InterfaceCount()` is their number and `GetInterface(i)` the i-th.
- `UsbContextWrapper` (library init and exit) and the hardware enumeration test are not modelled.
- `WrappedObj()` is a plain field read and is left out.
- The `USBRequestOptions` setters take only values inside their field's mask, because each enum type is a subset type. A value cast from an out-of-range integer, which the C++ `enum class` would accept, cannot be passed.
- `ClaimInterface()`: its loop over the listed configurations is the separate method `ClaimConfigs`. The native calls and the outcome are exactly those of the inline loop.
- DeviceWrapper.UsbDeviceWrapper.constructor: the header documents that every method of a default-constructed wrapper throws, but the code never checks for the null device. `GetDescriptor`, `Open`, `GetConfigDescriptorList`, and the referencing in `Copy`, `Assign` and `Ref`, forward the null device to libusb. The model follows the code: on a default wrapper these methods log the call with no device and return whatever libusb answers, so they throw only when libusb reports an error.
- DeviceWrapper.UsbDeviceWrapper.BulkTransfer: `length` is a signed `int`. For a negative `length` libusb's documented range admits no successful answer, so the model's `BulkTransfer` always throws there; what libusb does with a negative length is not modelled.
