/** Roles, packet kinds and packet metadata shared by every block of the controller. */
module UsbTypes {
  import opened Kernel

  type byte = x: int | 0 <= x < 256
  type uint16 = x: int | 0 <= x < 0x1_0000
  const TWO32: int := 0x1_0000_0000
  type uint32 = x: int | 0 <= x < TWO32

  datatype Role = RoleNone | Host | Device

  /** Type-C attachment: UFP attached makes this side the host, DFP attached the device. */
  datatype Cc = Disconnected | UfpAttached | DfpAttached

  datatype PktType =
    | TpAck | TpNrdy | TpErdy | TpStall
    | DpData | Setup | CtrlData | CtrlStatus
    | BulkIn | BulkOut

  datatype Direction = HostToDevice | DeviceToHost
  datatype EpType = Control | Isoch | Bulk | Interrupt
  datatype Completion = Success | StallErr

  /** The response status of a transaction; it is Incomplete until a target sets it. */
  datatype Response = Incomplete | Ok | GenericError

  const DESC_DEVICE: byte := 1
  const DESC_CONFIGURATION: byte := 2
  const DESC_STRING: byte := 3
  const DESC_BOS: byte := 0x0F

  const REQ_GET_STATUS: byte := 0
  const REQ_SET_ADDRESS: byte := 5
  const REQ_GET_DESCRIPTOR: byte := 6
  const REQ_SET_CONFIGURATION: byte := 9

  /** Setup data, section 9.3 of the USB 3.0 specification. */
  datatype SetupPkt = SetupPkt(bmRequestType: byte, bRequest: byte, wValue: uint16, wIndex: uint16, wLength: uint16)

  const ZERO_SETUP := SetupPkt(0, 0, 0, 0, 0)

  /** Packet metadata, carried beside the payload bytes. */
  datatype Ext = Ext(pktType: PktType, devAddr: byte, endpoint: byte, direction: Direction,
                     epType: EpType, code: Completion, seqNum: uint32, setup: SetupPkt)

  const DEFAULT_EXT := Ext(DpData, 0, 0, HostToDevice, Bulk, Success, 0, ZERO_SETUP)

  function MakeExt(kind: PktType, devAddr: byte, endpoint: byte, direction: Direction, epType: EpType): Ext {
    DEFAULT_EXT.(pktType := kind, devAddr := devAddr, endpoint := endpoint, direction := direction, epType := epType)
  }

  datatype Packet = Packet(ext: Option<Ext>, data: seq<byte>)

  /** Which kinds take a sequence number when they are sent. */
  predicate UsesSequence(kind: PktType) {
    kind == DpData || kind == BulkOut || kind == BulkIn || kind == Setup
  }
}
