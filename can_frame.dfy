/**
 * The CAN frame as the driver hands it to the subsystem (`struct zcan_frame`)
 * and the solicitation frame the transmit loop sends to the force/torque
 * sensor.
 */
module CanFrame {
  import opened ByteOrder

  /** Base identifier of the force/torque sensor (`FT_ID`). */
  const FT_ID: int := 0x1b0

  /** Largest identifier the 29-bit `id` field of a frame can hold. */
  const MAX_ID: int := 0x1FFF_FFFF

  type CanId = x: int | 0 <= x <= MAX_ID

  datatype IdType = Standard | Extended

  /** The `rtr` flag: an ordinary data frame or a remote transmission request. */
  datatype FrameKind = DataFrame | RemoteRequest

  /** The eight payload bytes (`data[0..8]`, overlaid by `data_32[0..2]`). */
  type Payload = s: seq<byte> | |s| == 8 witness [0, 0, 0, 0, 0, 0, 0, 0]

  datatype Frame = Frame(idType: IdType, kind: FrameKind, id: CanId, dlc: byte, data: Payload)
  {
    /** The four bytes overlaid by `data_32[k]`. */
    function Word(k: nat): (b: Quad)
      requires k < 2
      ensures forall i :: 0 <= i < 4 ==> b[i] == data[4 * k + i]
    {
      data[4 * k .. 4 * k + 4]
    }
  }

  /** The flag byte the transmit loop writes into `data[0]` on every cycle. */
  const SOLICIT_FLAG: byte := 0x01

  /**
   * The request frame built by the transmit loop: a standard-identifier data
   * frame at `FT_ID` with a one-byte payload. The initialiser leaves the other
   * payload bytes zero; the loop sets `data[0]` before every send.
   */
  function SolicitationFrame(): (f: Frame)
    ensures f.idType == Standard && f.kind == DataFrame
    ensures f.id == FT_ID && f.dlc == 1
    ensures f.data[0] == SOLICIT_FLAG
    ensures forall i :: 1 <= i < 8 ==> f.data[i] == 0
  {
    Frame(Standard, DataFrame, FT_ID, 1, [SOLICIT_FLAG, 0, 0, 0, 0, 0, 0, 0])
  }
}
