/**
 * The USB control-request option byte (`bmRequestType`, section 9.3.1 and
 * Table 9-2 of the USB 2.0 Specification) as `USBRequestOptions` keeps it:
 * one byte holding three disjoint fields,
 *   recipient     bits 0-4  (mask 0x1f)
 *   request type  bits 5-6  (mask 0x60)
 *   direction     bit  7    (mask 0x80).
 * Enumerator values are stored already shifted into their field, so a field
 * value is the byte masked, never shifted back.
 */
module RequestOptions {

  const RecipientPos: nat := 0
  const RecipientMask: bv8 := 0x1f << RecipientPos
  const RequestTypePos: nat := 5
  const RequestTypeMask: bv8 := 0x3 << RequestTypePos
  const DirectionPos: nat := 7
  const DirectionMask: bv8 := 0x1 << DirectionPos

  /**
   * A value of each C++ enum is any byte confined to its own field: the
   * named enumerators below, and also the patterns the USB table reserves,
   * which are not validated and pass through unchanged.
   */
  type RecipientType = r: bv8 | r & !RecipientMask == 0
  type RequestType = t: bv8 | t & !RequestTypeMask == 0
  type DataDirection = d: bv8 | d & !DirectionMask == 0

  const Device: RecipientType := 0x00 << RecipientPos
  const Interface: RecipientType := 0x01 << RecipientPos
  const Endpoint: RecipientType := 0x02 << RecipientPos
  const Other: RecipientType := 0x03 << RecipientPos

  const Standard: RequestType := 0x00 << RequestTypePos
  const Class: RequestType := 0x01 << RequestTypePos
  const Vendor: RequestType := 0x02 << RequestTypePos

  const HostToDevice: DataDirection := 0 << DirectionPos
  const DeviceToHost: DataDirection := 1 << DirectionPos

  // ---------------------------------------------------------------------
  // The byte as a value: field selection, field update, construction.
  // ---------------------------------------------------------------------

  function DirectionOf(b: bv8): DataDirection { b & DirectionMask }
  function RequestTypeOf(b: bv8): RequestType { b & RequestTypeMask }
  function RecipientOf(b: bv8): RecipientType { b & RecipientMask }

  /** The byte after `SetDataDirection(value)`: only bit 7 is replaced. */
  function WithDirection(b: bv8, value: DataDirection): (b': bv8)
    ensures DirectionOf(b') == value
    ensures RequestTypeOf(b') == RequestTypeOf(b) && RecipientOf(b') == RecipientOf(b)
    ensures b' & !DirectionMask == b & !DirectionMask
  {
    (b & !DirectionMask) | value
  }

  /** The byte after `SetRequestType(value)`: only bits 5-6 are replaced. */
  function WithRequestType(b: bv8, value: RequestType): (b': bv8)
    ensures RequestTypeOf(b') == value
    ensures DirectionOf(b') == DirectionOf(b) && RecipientOf(b') == RecipientOf(b)
    ensures b' & !RequestTypeMask == b & !RequestTypeMask
  {
    (b & !RequestTypeMask) | value
  }

  /** The byte after `SetRecipientType(value)`: only bits 0-4 are replaced. */
  function WithRecipient(b: bv8, value: RecipientType): (b': bv8)
    ensures RecipientOf(b') == value
    ensures DirectionOf(b') == DirectionOf(b) && RequestTypeOf(b') == RequestTypeOf(b)
    ensures b' & !RecipientMask == b & !RecipientMask
  {
    (b & !RecipientMask) | value
  }

  /** The byte built by the three-argument constructor: each field reads back as given. */
  function Encode(direction: DataDirection, requestType: RequestType, recipient: RecipientType): (b: bv8)
    ensures DirectionOf(b) == direction
    ensures RequestTypeOf(b) == requestType
    ensures RecipientOf(b) == recipient
  {
    direction | requestType | recipient
  }

  // ---------------------------------------------------------------------
  // Properties of the layout.
  // ---------------------------------------------------------------------

  /** The three masks are pairwise disjoint and together cover all eight bits. */
  lemma MasksPartitionByte()
    ensures RecipientMask & RequestTypeMask == 0
    ensures RecipientMask & DirectionMask == 0
    ensures RequestTypeMask & DirectionMask == 0
    ensures RecipientMask | RequestTypeMask | DirectionMask == 0xff
  {
  }

  /** The named enumerators carry the codes of Table 9-2 of the USB 2.0 Specification. */
  lemma EnumeratorsMatchUsbTable()
    ensures Device == 0 && Interface == 1 && Endpoint == 2 && Other == 3
    ensures Standard == 0x00 && Class == 0x20 && Vendor == 0x40
    ensures HostToDevice == 0x00 && DeviceToHost == 0x80
  {
  }

  /** Every byte is the encoding of its own three fields, so decoding loses nothing. */
  lemma EncodeOfFields(b: bv8)
    ensures Encode(DirectionOf(b), RequestTypeOf(b), RecipientOf(b)) == b
  {
  }

  /** Different triples give different bytes. */
  lemma EncodeInjective(d1: DataDirection, t1: RequestType, r1: RecipientType,
                        d2: DataDirection, t2: RequestType, r2: RecipientType)
    requires Encode(d1, t1, r1) == Encode(d2, t2, r2)
    ensures d1 == d2 && t1 == t2 && r1 == r2
  {
  }

  /** Two recipients under the same direction and request type differ only in bits 0-4. */
  lemma RecipientsDifferOnlyInLowBits(d: DataDirection, t: RequestType, r1: RecipientType, r2: RecipientType)
    ensures (Encode(d, t, r1) ^ Encode(d, t, r2)) & !RecipientMask == 0
  {
  }

  /** Setting the direction twice is setting it once. */
  lemma SetDirectionIdempotent(b: bv8, d: DataDirection)
    ensures WithDirection(WithDirection(b, d), d) == WithDirection(b, d)
  {
  }

  /** Setting the request type twice is setting it once. */
  lemma SetRequestTypeIdempotent(b: bv8, t: RequestType)
    ensures WithRequestType(WithRequestType(b, t), t) == WithRequestType(b, t)
  {
  }

  /** Setting the recipient twice is setting it once. */
  lemma SetRecipientIdempotent(b: bv8, r: RecipientType)
    ensures WithRecipient(WithRecipient(b, r), r) == WithRecipient(b, r)
  {
  }

  /** Setting the direction to the value it already holds changes nothing. */
  lemma SetDirectionToOwnValue(b: bv8)
    ensures WithDirection(b, DirectionOf(b)) == b
  {
  }

  /** Setting the request type to the value it already holds changes nothing. */
  lemma SetRequestTypeToOwnValue(b: bv8)
    ensures WithRequestType(b, RequestTypeOf(b)) == b
  {
  }

  /** Setting the recipient to the value it already holds changes nothing. */
  lemma SetRecipientToOwnValue(b: bv8)
    ensures WithRecipient(b, RecipientOf(b)) == b
  {
  }

  /** Setting all three fields, in any starting byte, gives the constructor's byte. */
  lemma SettersBuildEncoding(b: bv8, d: DataDirection, t: RequestType, r: RecipientType)
    ensures WithRecipient(WithRequestType(WithDirection(b, d), t), r) == Encode(d, t, r)
    ensures WithDirection(WithRequestType(WithRecipient(b, r), t), d) == Encode(d, t, r)
  {
  }

  /** The request byte `GetStatus` builds: device-to-host, standard, to the device. */
  lemma GetStatusRequestByte()
    ensures Encode(DeviceToHost, Standard, Device) == 0x80
  {
  }

  // ---------------------------------------------------------------------
  // The C++ object, whose single byte the setters update in place.
  // ---------------------------------------------------------------------

  class UsbRequestOptions {
    var optionsByte: bv8

    /** The default constructor leaves the byte 0. */
    constructor ()
      ensures optionsByte == 0
      ensures DirectionOf(optionsByte) == HostToDevice
      ensures RequestTypeOf(optionsByte) == Standard
      ensures RecipientOf(optionsByte) == Device
    {
      optionsByte := 0;
    }

    constructor Make(direction: DataDirection, requestType: RequestType, recipient: RecipientType)
      ensures optionsByte == Encode(direction, requestType, recipient)
      ensures DirectionOf(optionsByte) == direction
      ensures RequestTypeOf(optionsByte) == requestType
      ensures RecipientOf(optionsByte) == recipient
    {
      optionsByte := direction | requestType | recipient;
    }

    /** `operator uint8_t`: the byte is the OR of its three fields. */
    function ToByte(): (b: bv8)
      reads this
      ensures b == Encode(DirectionOf(optionsByte), RequestTypeOf(optionsByte), RecipientOf(optionsByte))
    {
      optionsByte
    }

    method GetDataDirection() returns (value: DataDirection)
      ensures value == DirectionOf(optionsByte)
    {
      value := optionsByte & DirectionMask;
    }

    method SetDataDirection(value: DataDirection)
      modifies this
      ensures optionsByte == WithDirection(old(optionsByte), value)
    {
      optionsByte := (optionsByte & !DirectionMask) | value;
    }

    method GetRequestType() returns (value: RequestType)
      ensures value == RequestTypeOf(optionsByte)
    {
      value := optionsByte & RequestTypeMask;
    }

    method SetRequestType(value: RequestType)
      modifies this
      ensures optionsByte == WithRequestType(old(optionsByte), value)
    {
      optionsByte := (optionsByte & !RequestTypeMask) | value;
    }

    method GetRecipientType() returns (value: RecipientType)
      ensures value == RecipientOf(optionsByte)
    {
      value := optionsByte & RecipientMask;
    }

    method SetRecipientType(value: RecipientType)
      modifies this
      ensures optionsByte == WithRecipient(old(optionsByte), value)
    {
      optionsByte := (optionsByte & !RecipientMask) | value;
    }
  }
}
