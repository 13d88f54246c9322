/**
 * The force/torque cache: three force and three torque readings, one per
 * axis group, written by the receive callback and copied out by
 * `get_ft_values`. The mutex that guards them is not modelled: each
 * operation is one atomic step.
 */
module Telemetry {
  import opened ByteOrder
  import opened CanFrame

  const AXIS_GROUPS: nat := 3

  datatype Option<T> = None | Some(value: T)

  /**
   * The slot a frame identifier writes: `i - 1` when the identifier is
   * `FT_ID + i` for `i` in 1..3, none otherwise.
   */
  function AxisSlot(id: CanId): (r: Option<nat>)
    ensures r.Some? <==> FT_ID + 1 <= id <= FT_ID + AXIS_GROUPS
    ensures r.Some? ==> r.value < AXIS_GROUPS && id == FT_ID + 1 + r.value
  {
    if FT_ID < id <= FT_ID + AXIS_GROUPS then Some(id - FT_ID - 1) else None
  }

  /** The force a frame carries: `(int32_t)__bswap_32(data_32[0])`. */
  function ForceOf(f: Frame): (x: int32)
    ensures x == BigEndianSigned(f.data[0..4])
  {
    assert f.Word(0) == f.data[0..4];
    HostDecode(f.Word(0))
  }

  /** The torque a frame carries: `(int32_t)__bswap_32(data_32[1])`. */
  function TorqueOf(f: Frame): (x: int32)
    ensures x == BigEndianSigned(f.data[4..8])
  {
    assert f.Word(1) == f.data[4..8];
    HostDecode(f.Word(1))
  }

  /**
   * Reference definition of what a frame does to one of the two slot
   * arrays: the slot its identifier selects takes `v`, nothing else moves.
   */
  function Updated(s: seq<int32>, id: CanId, v: int32): (r: seq<int32>)
    requires |s| == AXIS_GROUPS
    ensures |r| == AXIS_GROUPS
    ensures forall j :: 0 <= j < AXIS_GROUPS ==> r[j] == if AxisSlot(id) == Some(j) then v else s[j]
  {
    match AxisSlot(id)
    case None => s
    case Some(j) => s[j := v]
  }

  /** The cache after each frame of `frames` has been received in turn. */
  function ForcesAfter(s: seq<int32>, frames: seq<Frame>): (r: seq<int32>)
    requires |s| == AXIS_GROUPS
    ensures |r| == AXIS_GROUPS
    decreases |frames|
  {
    if frames == [] then s
    else ForcesAfter(Updated(s, frames[0].id, ForceOf(frames[0])), frames[1..])
  }

  function TorquesAfter(s: seq<int32>, frames: seq<Frame>): (r: seq<int32>)
    requires |s| == AXIS_GROUPS
    ensures |r| == AXIS_GROUPS
    decreases |frames|
  {
    if frames == [] then s
    else TorquesAfter(Updated(s, frames[0].id, TorqueOf(frames[0])), frames[1..])
  }

  /** The last frame of `frames` addressed to slot `j`, if any. */
  function LastFor(frames: seq<Frame>, j: nat): (r: Option<Frame>)
    ensures r.Some? ==> r.value in frames && AxisSlot(r.value.id) == Some(j)
    ensures r.Some? ==>
      exists k :: 0 <= k < |frames| && frames[k] == r.value &&
        forall m :: k < m < |frames| ==> AxisSlot(frames[m].id) != Some(j)
    ensures r.None? ==> forall k :: 0 <= k < |frames| ==> AxisSlot(frames[k].id) != Some(j)
    decreases |frames|
  {
    if frames == [] then None
    else if AxisSlot(frames[|frames| - 1].id) == Some(j) then Some(frames[|frames| - 1])
    else LastFor(frames[..|frames| - 1], j)
  }

  class FtCache {
    var forces: array<int32>
    var torques: array<int32>

    ghost predicate Valid()
      reads this
    {
      forces.Length == AXIS_GROUPS && torques.Length == AXIS_GROUPS && forces != torques
    }

    /** The readings `get_ft_values` hands out: the forces, then the torques. */
    ghost function Snapshot(): (r: seq<int32>)
      requires Valid()
      reads this, forces, torques
      ensures |r| == 2 * AXIS_GROUPS
    {
      forces[..] + torques[..]
    }

    /** Both arrays are zero-initialised static storage. */
    constructor ()
      ensures Valid() && fresh(forces) && fresh(torques)
      ensures forces[..] == [0, 0, 0] && torques[..] == [0, 0, 0]
    {
      forces := new int32[AXIS_GROUPS](_ => 0);
      torques := new int32[AXIS_GROUPS](_ => 0);
    }

    /**
     * `receive_change_led`: for each `i` in 1..3, a frame at `FT_ID + i`
     * overwrites slot `i - 1` of both arrays with the decoded payload words.
     * Neither `dlc`, `rtr` nor the identifier type is looked at.
     */
    method Receive(frame: Frame)
      requires Valid()
      modifies forces, torques
      ensures Valid()
      ensures forces[..] == Updated(old(forces[..]), frame.id, ForceOf(frame))
      ensures torques[..] == Updated(old(torques[..]), frame.id, TorqueOf(frame))
    {
      for i := 1 to AXIS_GROUPS + 1
        invariant forces[..] ==
          if FT_ID < frame.id < FT_ID + i then old(forces[..])[frame.id - FT_ID - 1 := ForceOf(frame)]
          else old(forces[..])
        invariant torques[..] ==
          if FT_ID < frame.id < FT_ID + i then old(torques[..])[frame.id - FT_ID - 1 := TorqueOf(frame)]
          else old(torques[..])
      {
        if frame.id == FT_ID + i {
          var f := frame.Word(0);
          forces[i - 1] := HostDecode(f);
          var t := frame.Word(1);
          torques[i - 1] := HostDecode(t);
        }
      }
    }

    /** `get_ft_values`: copies the forces and then the torques into `dst[0..6]`. */
    method GetFtValues(dst: array<int32>)
      requires Valid()
      requires dst.Length >= 2 * AXIS_GROUPS && dst != forces && dst != torques
      modifies dst
      ensures dst[..2 * AXIS_GROUPS] == Snapshot()
      ensures dst[2 * AXIS_GROUPS..] == old(dst[2 * AXIS_GROUPS..])
    {
      forall i | 0 <= i < AXIS_GROUPS {
        dst[i] := forces[i];
      }
      forall i | AXIS_GROUPS <= i < 2 * AXIS_GROUPS {
        dst[i] := torques[i - AXIS_GROUPS];
      }
    }
  }

  /**
   * A frame at `FT_ID + k`, k in 1..3, sets slot `k - 1` to the signed
   * big-endian values of payload bytes 0..3 (force) and 4..7 (torque) and
   * leaves the other slots alone.
   */
  lemma ReceiveDecodesBigEndian(forces: seq<int32>, torques: seq<int32>, f: Frame, k: int)
    requires |forces| == AXIS_GROUPS && |torques| == AXIS_GROUPS
    requires 1 <= k <= AXIS_GROUPS && f.id == FT_ID + k
    ensures Updated(forces, f.id, ForceOf(f))[k - 1] == BigEndianSigned(f.data[0..4])
    ensures Updated(torques, f.id, TorqueOf(f))[k - 1] == BigEndianSigned(f.data[4..8])
    ensures forall j :: 0 <= j < AXIS_GROUPS && j != k - 1 ==>
      Updated(forces, f.id, ForceOf(f))[j] == forces[j] && Updated(torques, f.id, TorqueOf(f))[j] == torques[j]
  {
    assert f.Word(0) == f.data[0..4];
    assert f.Word(1) == f.data[4..8];
  }

  /** A frame at any identifier other than `FT_ID + 1..3` changes nothing. */
  lemma ReceiveIgnoresOtherIds(s: seq<int32>, f: Frame, v: int32)
    requires |s| == AXIS_GROUPS
    requires !(FT_ID + 1 <= f.id <= FT_ID + AXIS_GROUPS)
    ensures Updated(s, f.id, v) == s
  {
  }

  /** Two frames that agree on identifier and payload have the same effect. */
  lemma ReceiveIgnoresDlcAndRtr(f: Frame, g: Frame)
    requires f.id == g.id && f.data == g.data
    ensures ForceOf(f) == ForceOf(g) && TorqueOf(f) == TorqueOf(g)
  {
  }

  /** The transmit loop's own request frame, looped back, leaves the cache alone. */
  lemma SolicitationNotCached(s: seq<int32>)
    requires |s| == AXIS_GROUPS
    ensures Updated(s, SolicitationFrame().id, ForceOf(SolicitationFrame())) == s
    ensures Updated(s, SolicitationFrame().id, TorqueOf(SolicitationFrame())) == s
  {
  }

  /**
   * After a run of frames, each slot holds the decoded payload of the last
   * frame addressed to it, or its earlier value if none was.
   */
  lemma {:induction false} LastWriteWins(forces: seq<int32>, torques: seq<int32>, frames: seq<Frame>, j: nat)
    requires |forces| == AXIS_GROUPS && |torques| == AXIS_GROUPS && j < AXIS_GROUPS
    ensures ForcesAfter(forces, frames)[j] ==
      match LastFor(frames, j) case None => forces[j] case Some(f) => BigEndianSigned(f.data[0..4])
    ensures TorquesAfter(torques, frames)[j] ==
      match LastFor(frames, j) case None => torques[j] case Some(f) => BigEndianSigned(f.data[4..8])
  {
    if frames != [] {
      var init, last := frames[..|frames| - 1], frames[|frames| - 1];
      assert frames == init + [last];
      AfterSnoc(forces, torques, init, last);
      LastWriteWins(forces, torques, init, j);
      assert last.Word(0) == last.data[0..4];
      assert last.Word(1) == last.data[4..8];
    }
  }

  /** Receiving one more frame at the end of a run. */
  lemma {:induction false} AfterSnoc(forces: seq<int32>, torques: seq<int32>, frames: seq<Frame>, f: Frame)
    requires |forces| == AXIS_GROUPS && |torques| == AXIS_GROUPS
    ensures ForcesAfter(forces, frames + [f]) == Updated(ForcesAfter(forces, frames), f.id, ForceOf(f))
    ensures TorquesAfter(torques, frames + [f]) == Updated(TorquesAfter(torques, frames), f.id, TorqueOf(f))
    decreases |frames|
  {
    if frames != [] {
      assert (frames + [f])[1..] == frames[1..] + [f];
      AfterSnoc(Updated(forces, frames[0].id, ForceOf(frames[0])),
                Updated(torques, frames[0].id, TorqueOf(frames[0])), frames[1..], f);
    }
  }

  /** A response frame for group 1 carrying 1000 and -1000. */
  function ExampleResponse(): Frame
  {
    Frame(Standard, DataFrame, FT_ID + 1, 8, [0x00, 0x00, 0x03, 0xE8, 0xFF, 0xFF, 0xFC, 0x18])
  }

  /**
   * From a fresh cache, receiving the example response at `FT_ID + 1` makes
   * `get_ft_values` return `[1000, 0, 0, -1000, 0, 0]`.
   */
  method ExampleExchange() returns (dst: array<int32>)
    ensures dst.Length == 2 * AXIS_GROUPS
    ensures dst[..] == [1000, 0, 0, -1000, 0, 0]
  {
    var cache := new FtCache();
    cache.Receive(ExampleResponse());
    dst := new int32[2 * AXIS_GROUPS];
    cache.GetFtValues(dst);
    assert ExampleResponse().Word(0) == [0x00, 0x00, 0x03, 0xE8];
    assert ExampleResponse().Word(1) == [0xFF, 0xFF, 0xFC, 0x18];
    assert dst[..] == dst[..2 * AXIS_GROUPS];
  }

  /** Two reads with no frame in between hand out the same readings. */
  method ReadTwice(cache: FtCache, a: array<int32>, b: array<int32>)
    requires cache.Valid()
    requires a.Length >= 2 * AXIS_GROUPS && a != cache.forces && a != cache.torques
    requires b.Length >= 2 * AXIS_GROUPS && b != cache.forces && b != cache.torques
    modifies a, b
    ensures a[..2 * AXIS_GROUPS] == b[..2 * AXIS_GROUPS] == cache.Snapshot()
    ensures unchanged(cache.forces) && unchanged(cache.torques)
  {
    cache.GetFtValues(a);
    cache.GetFtValues(b);
  }
}
