# CAN force/torque subsystem — Dafny model

A model of the logic core of `src/can_subsystem.c`, the Zephyr CAN subsystem of an
embedded node. The node asks a remote force/torque sensor for data, caches the replies,
and watches the health of its CAN controller. The model covers:

- **Payload decode** (`ByteOrder`). Each 4-byte payload word is loaded as a host word on a
  little-endian host, byte-swapped with `__bswap_32` and cast to `int32_t`. The model
  proves this equals the signed big-endian (network order) value of the four bytes. It
  also proves that encoding an `int32` in network order and decoding it gives the value
  back, and that the byte swap done twice is the identity.
- **Frames** (`CanFrame`). The `zcan_frame` fields the core touches, `FT_ID` = 0x1b0, and
  the solicitation frame of the transmit loop.
- **Telemetry cache** (`Telemetry`). The class `FtCache` holds the two static 3-slot arrays
  `forces` and `torques`. `Receive` is `receive_change_led`: its loop over `i` in 1..3
  writes slot `i - 1` when the frame identifier is `FT_ID + i`. `GetFtValues` is
  `get_ft_values`: it copies the forces, then the torques, into the caller's buffer. Both
  methods are proved against the reference function `Updated` and the view `Snapshot`.
  Lemmas about those functions state the decode, "only that slot changes", "other
  identifiers are ignored" and "the last write to each slot wins".
- **Bus health** (`BusHealth`). `StateToStr` is `state_to_str`. `Changed` is the poll
  comparator. `PollStateThread` runs the poll loop over a finite sequence of driver
  readings, with the source's local snapshot variables. `StateChangeMonitor` holds
  `current_state`/`current_err_cnt`: the interrupt writes them and the deferred handler
  decides on recovery from them.

The driver calls are values passed in. `can_get_state` readings are the `samples`
argument. The result of `can_recover` is the `recoverResult` argument. The
`CONFIG_CAN_AUTO_BUS_OFF_RECOVERY` build flag is the `autoRecovery` argument. The host is
taken to be little-endian.

`receive_change_led` has no length check. It never reads `dlc`, `rtr` or the identifier
type. It compares `frame->id` only and always decodes all eight payload bytes, so a short
frame at 0x1b1..0x1b3 is still cached. `ReceiveIgnoresDlcAndRtr` states this.

## Model

| member | source | states |
|---|---|---|
| `ByteOrder.LoadLittleEndian` | src/can_subsystem.c:89-91 | the 32-bit `data_32` load on a little-endian host: byte `i` of the word, counted from the lowest, is the byte at offset `i` |
| `ByteOrder.Bswap32` | src/can_subsystem.c:89-92 | the bytes of the result are the bytes of the input in reverse order |
| `ByteOrder.Bswap32Involutive` | src/can_subsystem.c:90-92 | swapping the bytes twice gives back the original word |
| `ByteOrder.ToSigned` | src/can_subsystem.c:90-92 | the `int32_t` cast is negative exactly when the top bit is set, and differs from the word by 0 or 2^32 |
| `ByteOrder.HostDecode` | src/can_subsystem.c:89-92 | the host load, byte swap and signed cast together give the signed big-endian value of the four bytes |
| `ByteOrder.EncodeBigEndian` | src/can_subsystem.c:89-92 | encoding an `int32` in network order and decoding the bytes returns the original value |
| `ByteOrder.DecodeEncode` | src/can_subsystem.c:89-92 | decoding four bytes and encoding the value returns the original bytes |
| `CanFrame.Frame.Word` | src/can_subsystem.c:89-91 | `data_32[k]` covers exactly payload bytes `4k..4k+3` |
| `CanFrame.SolicitationFrame` | src/can_subsystem.c:179-184 | the request is a standard-identifier data frame at 0x1b0 with `dlc` 1, `data[0]` = 0x01 and the other bytes zero |
| `Telemetry.AxisSlot` | src/can_subsystem.c:85-87 | an identifier selects a slot exactly when it is `FT_ID + 1..3`, and then the slot is the offset minus one |
| `Telemetry.ForceOf` | src/can_subsystem.c:89-90 | the force written from a frame is the signed big-endian value of payload bytes 0..3 |
| `Telemetry.TorqueOf` | src/can_subsystem.c:91-92 | the torque written from a frame is the signed big-endian value of payload bytes 4..7 |
| `Telemetry.Updated` | src/can_subsystem.c:85-93 | reference definition of one receive on one array: the slot the identifier selects holds the new value and every other slot keeps its old value |
| `Telemetry.FtCache.constructor` | src/can_subsystem.c:65-66 | both static arrays start out as three zeros |
| `Telemetry.FtCache.Receive` | src/can_subsystem.c:81-95 | the new forces and torques are the old ones with the selected slot set to the decoded payload words, and no other change |
| `Telemetry.FtCache.GetFtValues` | src/can_subsystem.c:73-79 | `dst[0..6]` becomes the forces followed by the torques; the cache and the rest of `dst` stay as they were |
| `Telemetry.ReceiveDecodesBigEndian` | src/can_subsystem.c:85-93 | a frame at `FT_ID + k` puts the big-endian values of bytes 0..3 and 4..7 into force and torque slot `k - 1` and leaves the other slots unchanged |
| `Telemetry.ReceiveIgnoresOtherIds` | src/can_subsystem.c:85-87 | a frame at any identifier outside 0x1b1..0x1b3 leaves the cache unchanged |
| `Telemetry.ReceiveIgnoresDlcAndRtr` | src/can_subsystem.c:87-92 | two frames with the same identifier and payload decode the same, whatever their `dlc`, `rtr` and identifier type |
| `Telemetry.SolicitationNotCached` | src/can_subsystem.c:179-184 | the node's own request frame at 0x1b0 changes neither the forces nor the torques |
| `Telemetry.LastWriteWins` | src/can_subsystem.c:85-93 | after any run of frames, each slot holds the decoded payload of the last frame addressed to it, or its earlier value if no frame was |
| `Telemetry.ExampleExchange` | src/can_subsystem.c:73-93 | from a fresh cache, the frame `00 00 03 E8 FF FF FC 18` at 0x1b1 makes the snapshot `[1000, 0, 0, -1000, 0, 0]` |
| `Telemetry.ReadTwice` | src/can_subsystem.c:73-79 | two reads with no frame in between fill both buffers with the same values and leave the cache unchanged |
| `BusHealth.StateToStr` | src/can_subsystem.c:103-115 | each named state gets its own label (in both directions), and every other state gets "unknown" |
| `BusHealth.StateToStrInjective` | src/can_subsystem.c:103-115 | no two states share a label |
| `BusHealth.Changed` | src/can_subsystem.c:126-128 | the field-by-field comparison holds exactly when the reading differs from the snapshot |
| `BusHealth.Reports` | src/can_subsystem.c:129-136 | reference definition of the poll loop's report stream: the readings that differ from the reading before them; there are never more reports than readings |
| `BusHealth.PollStateThread` | src/can_subsystem.c:117-141 | starting from the snapshot `INITIAL_SNAPSHOT` = (error-active, 0, 0) of lines 119-121, the loop reports exactly the readings that differ from the one before and backs off on all the others; the snapshot ends as the latest reading |
| `BusHealth.ReportsChangeEveryTime` | src/can_subsystem.c:126-136 | no report repeats the one before it, and the first differs from the starting snapshot |
| `BusHealth.ReportsEndAtLatest` | src/can_subsystem.c:126-139 | the last report is the latest reading; when nothing was reported, every reading equalled the starting snapshot |
| `BusHealth.ReportsAreReadings` | src/can_subsystem.c:129-136 | every report is a reading the loop took |
| `BusHealth.StateChangeMonitor.constructor` | src/can_subsystem.c:33-34 | the globals start as error-active with zero counters |
| `BusHealth.StateChangeMonitor.StateChangeIsr` | src/can_subsystem.c:162-167 | the state and both counters are recorded together, so the last notification wins |
| `BusHealth.StateChangeMonitor.StateChangeWorkHandler` | src/can_subsystem.c:143-160 | recovery is requested exactly once when auto-recovery is off and the recorded state is bus-off, and never otherwise; a non-zero answer is a time-out with no retry |
| `BusHealth.LastNotificationWins` | src/can_subsystem.c:143-167 | after two notifications, the recovery decision depends only on the second |

## Left out

- Mutex locking (`k_mutex_lock`/`k_mutex_unlock`), work-queue submission and thread creation. These are scheduling concerns; every operation is modelled as one atomic step.
- The driver calls `can_send`, `can_attach_workq`, `can_register_state_change_isr`, `device_get_binding`, `can_get_state` and `can_recover`. They are foreign code. Their results come in as arguments.
- The timeout argument of `can_recover` at line 155. The parenthesis is misplaced, so a comparison result is passed where a timeout belongs. Only the decision to attempt recovery is modelled.
- `printk`, `print_frame` and `tx_irq_callback`. They only log and hold no state. The poll loop's log is modelled as the sequence of reported readings.
- The endless loops and `k_sleep`. The poll loop is run over a finite sequence of readings, with the sleep branch counted as a back-off. The transmit loop is modelled as the frame it sends on each cycle.
- The start-up sequence of `main_can_ati_thread`: device lookup, filter attachment and its failure path, thread spawning. It only calls the driver. The receive filter is not modelled, so every frame the driver delivers reaches `Receive`.
- The GPIO device and the unused constants `LED_MSG_ID`, `COUNTER_MSG_ID`, `SET_LED` and `RESET_LED`. Nothing uses them.
- Big-endian hosts. `ByteOrder.HostDecode` fixes the host to little-endian. On a big-endian host the same C code would store byte-swapped values.
- Other values of `enum can_state`. The enum is taken to have exactly four values: the three named states and `Unknown`. If the driver had two distinct values besides the named three, the C comparison would report a change between them, and `Changed` would not.
- The frame timestamp field. Nothing in the core reads it.
