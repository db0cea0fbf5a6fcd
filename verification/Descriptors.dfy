/** Wire formats: the packed setup data and the device descriptor, and what the host reads
    back out of a device descriptor. Sections 9.3 and 9.6.1 of the USB 3.0 specification. */
module Descriptors {
  import opened UsbTypes

  /** A 16-bit field, least significant byte first. */
  function Le(w: uint16): (b: seq<byte>)
    ensures |b| == 2
  {
    [w % 256, w / 256]
  }

  function FromLe(lo: byte, hi: byte): uint16 { lo + 256 * hi }

  function Packed(s: SetupPkt): (b: seq<byte>)
    ensures |b| == 8
  {
    [s.bmRequestType, s.bRequest] + Le(s.wValue) + Le(s.wIndex) + Le(s.wLength)
  }

  /** Fills the eight-byte wire image of a setup packet, byte by byte. */
  method PackSetupPacket(s: SetupPkt) returns (out: array<byte>)
    ensures fresh(out) && out[..] == Packed(s)
  {
    out := new byte[8];
    out[0] := s.bmRequestType;
    out[1] := s.bRequest;
    out[2] := s.wValue % 256;
    out[3] := s.wValue / 256 % 256;
    out[4] := s.wIndex % 256;
    out[5] := s.wIndex / 256 % 256;
    out[6] := s.wLength % 256;
    out[7] := s.wLength / 256 % 256;
  }

  /** The 16-bit field w sits at offset i, least significant byte first. */
  predicate Holds(b: seq<byte>, i: nat, w: uint16)
    requires i + 1 < |b|
  {
    var lo: int, hi: int := b[i], b[i + 1];
    lo + 256 * hi == w
  }

  /** Where each field sits on the wire. */
  lemma PackedLayout(s: SetupPkt)
    ensures var b := Packed(s);
            && b[0] == s.bmRequestType && b[1] == s.bRequest
            && Holds(b, 2, s.wValue) && Holds(b, 4, s.wIndex) && Holds(b, 6, s.wLength)
  {
    var v, i, l := Le(s.wValue), Le(s.wIndex), Le(s.wLength);
    assert Packed(s) == [s.bmRequestType, s.bRequest, v[0], v[1], i[0], i[1], l[0], l[1]];
  }

  /** Two setup packets with the same wire image are the same packet: no request is ambiguous. */
  lemma PackedInjective(a: SetupPkt, b: SetupPkt)
    requires Packed(a) == Packed(b)
    ensures a == b
  {
    var p, q := Packed(a), Packed(b);
    assert forall i | 0 <= i < 8 :: p[i] == q[i];
    assert a.bmRequestType == p[0] && a.bRequest == p[1];
    assert b.bmRequestType == q[0] && b.bRequest == q[1];
    assert a.wValue == FromLe(p[2], p[3]) && b.wValue == FromLe(q[2], q[3]);
    assert a.wIndex == FromLe(p[4], p[5]) && b.wIndex == FromLe(q[4], q[5]);
    assert a.wLength == FromLe(p[6], p[7]) && b.wLength == FromLe(q[6], q[7]);
  }

  datatype DeviceDescriptor = DeviceDescriptor(
    bLength: byte, bDescriptorType: byte, bcdUSB: uint16,
    bDeviceClass: byte, bDeviceSubClass: byte, bDeviceProtocol: byte, bMaxPacketSize0: byte,
    idVendor: uint16, idProduct: uint16, bcdDevice: uint16,
    iManufacturer: byte, iProduct: byte, iSerialNumber: byte, bNumConfigurations: byte)

  /** The packed memory image of a descriptor on a little-endian machine. */
  function DescriptorBytes(d: DeviceDescriptor): (b: seq<byte>)
    ensures |b| == 18
  {
    [d.bLength, d.bDescriptorType] + Le(d.bcdUSB)
    + [d.bDeviceClass, d.bDeviceSubClass, d.bDeviceProtocol, d.bMaxPacketSize0]
    + Le(d.idVendor) + Le(d.idProduct) + Le(d.bcdDevice)
    + [d.iManufacturer, d.iProduct, d.iSerialNumber, d.bNumConfigurations]
  }

  /** Where each field sits, in the order of section 9.6.1. */
  lemma DescriptorLayout(d: DeviceDescriptor)
    ensures var b := DescriptorBytes(d);
            && b[0] == d.bLength && b[1] == d.bDescriptorType && Holds(b, 2, d.bcdUSB)
            && b[4] == d.bDeviceClass && b[5] == d.bDeviceSubClass && b[6] == d.bDeviceProtocol
            && b[7] == d.bMaxPacketSize0
            && Holds(b, 8, d.idVendor) && Holds(b, 10, d.idProduct)
            && Holds(b, 12, d.bcdDevice)
            && b[14] == d.iManufacturer && b[15] == d.iProduct && b[16] == d.iSerialNumber
            && b[17] == d.bNumConfigurations
  {
    var u, v, p, r := Le(d.bcdUSB), Le(d.idVendor), Le(d.idProduct), Le(d.bcdDevice);
    assert DescriptorBytes(d) ==
           [d.bLength, d.bDescriptorType, u[0], u[1],
            d.bDeviceClass, d.bDeviceSubClass, d.bDeviceProtocol, d.bMaxPacketSize0,
            v[0], v[1], p[0], p[1], r[0], r[1],
            d.iManufacturer, d.iProduct, d.iSerialNumber, d.bNumConfigurations];
  }

  /** What enumeration learns about the attached device. */
  datatype DeviceInfo = DeviceInfo(addr: byte, vendorId: uint16, productId: uint16, numConfigs: byte,
                                   activeConfig: byte, enumerated: bool)

  const NO_DEVICE := DeviceInfo(0, 0, 0, 0, 0, false)

  /** The host's reading of a device descriptor; a short answer leaves the record alone. */
  function ReadDeviceDescriptor(info: DeviceInfo, buf: seq<byte>): DeviceInfo {
    if |buf| >= 18 then
      info.(vendorId := FromLe(buf[8], buf[9]), productId := FromLe(buf[10], buf[11]), numConfigs := buf[17])
    else info
  }

  /** The host's reader inverts the device's printer, whatever the descriptor holds. */
  lemma DescriptorRoundTrip(info: DeviceInfo, d: DeviceDescriptor)
    ensures ReadDeviceDescriptor(info, DescriptorBytes(d))
         == info.(vendorId := d.idVendor, productId := d.idProduct, numConfigs := d.bNumConfigurations)
  {
    var b := DescriptorBytes(d);
    assert b[8] == Le(d.idVendor)[0] && b[9] == Le(d.idVendor)[1];
    assert b[10] == Le(d.idProduct)[0] && b[11] == Le(d.idProduct)[1];
  }
}
