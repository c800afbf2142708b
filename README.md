# Black Magic Probe hosted transports, modelled in Dafny

This project models the transport layer of the Black Magic Debug probe
firmware when it runs hosted on a PC and drives a debug adapter over USB.
Three pieces are covered.

- **The ST-Link command channel** (module `StlinkUsb`, `stlink_usb.dfy`).
  It covers:
  - how the status byte of a probe response is classified as OK, WAIT or FAIL;
  - how the GET_VERSION reply is decoded into the fields of the global `Stlink` record;
  - the firmware gate;
  - the choice of the command that leaves the probe's current mode;
  - the NRST drive command;
  - the USB product filter, and the API level it records;
  - the completion flags of one bulk transfer, and what `submit_wait` reports.
- **Debug-port access over that channel.**
  - The SW-DP (module `Swdp`, `swdp.dfy`) covers the low-level register
    access with its WAIT and FAIL handling, the two-step read of an access
    port through the DP Read Buffer (RDBUFF) of the ARM Debug Interface v5
    (ARM IHI0031A), and the scan that creates the SW-DP record.
  - The JTAG chain scanner of the ST-Link v2 (module `JtagDp`, `jtagdp.dfy`)
    covers the reset of the device array, the fill from the probe's IDCODEs,
    the first-match walk of the mask/value device table up to its zero
    sentinel, and the ADIv5 JTAG-DP handler.
  - Both fill in the debug-port record of module `Adiv5` (`adiv5.dfy`).
- **The descriptor-driven FTDI cable.**
  - Module `FtdiCable` (`ftdi_cable.dfy`) holds the pin and MPSSE
    constants (section 3.6 of FTDI AN_108), the cable descriptor and the
    table of known cables. It also holds the pure rules: merging a signed
    reset-descriptor field into a bus byte, the SET_BITS commands a
    descriptor yields, and the reset read-back pin and its polarity.
  - Module `FtdiPlatform` (`ftdi_platform.dfy`) is the platform's state: a
    class holding the active cable's four bus bytes, the 4096-byte output
    buffer and its fill pointer. It covers the methods `SetData`,
    `SrstSetVal`, `SrstGetVal`, `Write`, `Flush` and `Read`, and the
    selection of the cable by name.
  - Two ghost logs record every byte handed to the buffer (`issued`) and
    every USB write a flush makes (`sent`). The class invariant says that
    what was sent, followed by what is still pending, is exactly what was
    issued.

USB, libusb and libftdi I/O are not modelled. Every reply from a device is
a parameter:
- the version and mode replies;
- the one byte of a read-back;
- the outcome of a transfer wait;
- the answers of the ST-Link register calls, an oracle `Link.answer` indexed by request number;
- the IDCODEs the probe reports.

The command packets the ST-Link host sends go to the ghost log `Stlink.sent`.

Where the code and its design description disagree, the model follows
the code. The places noted are these, together with the merge of a zero
field listed under Findings.
- A cable with no reset descriptor, or no read-back pin, is documented as
  reporting "unsupported" or "unknown". The code silently does nothing:
  `platform_set_data` of an all-zero descriptor emits nothing, and
  `platform_srst_get_val` returns false.
- The active-high test on a read-back pin is `pin < 0x7f || pin == PIN7`,
  as written. There is no separate polarity flag.
- The pin update is described as buffered until the caller asks for a
  flush. `platform_set_data` writes its command and flushes at once
  (`Platform.SetData` through `Platform.WriteAndFlush`).
- `submit_wait` is described as reporting the transfer's final status on
  completion. The code tests the one-second deadline after each event-loop
  call, even one that has just run the callback, so a completion handled in
  a late call still gives -1 (`LateCompletionFails`).

## Model

| member | source | states |
|---|---|---|
| StlinkUsb.Code | src/platforms/blacklink/stlinkv2.h:20-22 | FAIL is -1, OK is 0 and WAIT is 1, and a code is 0 exactly when it is OK |
| StlinkUsb.ErrorCheck | src/platforms/blacklink/platform.c:343-398 | Over all 256 status bytes: OK exactly for 0x80 and 0x0d, WAIT exactly for 0x10 and 0x14, FAIL for every other value (the default fails closed) |
| StlinkUsb.NamedErrorsFail | src/platforms/blacklink/platform.c:348-394 | Every named error status fails, AP fault 0x11 included despite the openocd note |
| StlinkUsb.Word | src/platforms/blacklink/platform.c:408-410 | `hi << 8 \| lo` gives back `hi` as its high byte and `lo` as its low byte |
| StlinkUsb.Major | src/platforms/blacklink/platform.c:410-411 | The ST-Link generation (bits 12..15 of the version word) equals `data[0] >> 4` and is below 16 |
| StlinkUsb.JtagField | src/platforms/blacklink/platform.c:423 | The JTAG version (bits 6..11 of the version word) is the low nibble of `data[0]` followed by the top two bits of `data[1]`, below 64 |
| StlinkUsb.MassField | src/platforms/blacklink/platform.c:424-427 | The mass-storage version (bits 0..5 of the version word) is the low six bits of `data[1]` |
| StlinkUsb.Stlink.PlatformVersion | src/platforms/blacklink/platform.c:400-436 | GET_VERSION sets vid and pid from bytes 2..5. On generation 3 it sends GET_VERSION_EX and takes swim, jtag, mass and bridge from bytes 1..4 of the extended reply. Otherwise it takes jtag from the version word and mass only for pid 0x374b or 0x3752, leaving the other fields and the API level unchanged |
| StlinkUsb.ExitCommand | src/platforms/blacklink/platform.c:441-461 | An exit command exists exactly for the DFU, SWIM and debug modes: {F3,07} for DFU, {F4,01} for SWIM and {F2,21} for debug |
| StlinkUsb.ExitCommandIdentifiesMode | src/platforms/blacklink/platform.c:441-461 | Different modes are left with different commands |
| StlinkUsb.Stlink.LeaveState | src/platforms/blacklink/platform.c:438-462 | Exactly GET_CURRENT_MODE is sent, then {F3,07} for DFU, {F4,01} for SWIM, {F2,21} for debug, and nothing more for any other mode byte |
| StlinkUsb.DriveNrstCommand | src/platforms/blacklink/platform.c:608-612 | The command is {F2, 3C, x} with x = 00 exactly when asserting and 01 exactly when releasing |
| StlinkUsb.Stlink.SrstSetVal | src/platforms/blacklink/platform.c:608-617 | Driving NRST sends exactly the drive command |
| StlinkUsb.IsStlinkDevice | src/platforms/blacklink/platform.c:516-518 | A device passes the filter exactly when its vendor is 0x483 and its product lies in 0x3740..0x374f |
| StlinkUsb.KnownProductsFiltered | src/platforms/blacklink/platform.c:31-37 | V1, V2, V2.1 and V3 pass the filter; the V2.1 mass-storage ID 0x3752 does not |
| StlinkUsb.ApiLevel | src/platforms/blacklink/platform.c:534-551 | With an acceptable serial, a V2 sets the API level to 20, and a V2.1 or V3 sets it to 21. Every other probe leaves the level unchanged, and a change always comes from one of those cases |
| StlinkUsb.Stlink.NoteOpenedProbe | src/platforms/blacklink/platform.c:534-551 | The record's API level becomes the level `ApiLevel` assigns to the opened probe |
| StlinkUsb.ApiAfter | src/platforms/blacklink/platform.c:508-558 | If no opened probe sets the API level, it keeps its starting value. Otherwise it is 20 or 21, the level that the last probe setting it assigns: a later probe overwrites an earlier one |
| StlinkUsb.ApiAfterBelow30 | src/platforms/blacklink/platform.c:508-558 | However many probes the enumeration opens, an API level below 30 stays below 30 |
| StlinkUsb.FirmwareAccepted | src/platforms/blacklink/platform.c:593-596 | The firmware is accepted exactly when the API level is at least 30 or the JTAG version is at least 32 |
| StlinkUsb.GateIsJtagVersionCheck | src/platforms/blacklink/platform.c:593-596 | Starting from the zeroed record, the firmware gate accepts exactly a JTAG version of 32 or more |
| StlinkUsb.Stlink.Connect | src/platforms/blacklink/platform.c:592-597 | After the version read, initialisation goes on (and leaves the current mode) exactly when the gate accepts the API level and the reported JTAG version; on refusal nothing is sent after the version queries |
| StlinkUsb.Stlink.constructor | src/platforms/blacklink/platform.c:187-202 | The global record starts zeroed, with nothing sent |
| StlinkUsb.DoneFlags | src/platforms/blacklink/platform.c:224-243 | After the callback IS_DONE is set, HAS_ERROR is set exactly when it was already set or the status is not COMPLETED, and no flag is cleared |
| StlinkUsb.TransCtx.OnTransDone | src/platforms/blacklink/platform.c:224-243 | The callback updates the flags as `DoneFlags` describes |
| StlinkUsb.TransCtx.constructor | src/platforms/blacklink/platform.c:252 | The flags of a new wait start empty |
| StlinkUsb.SubmitWait | src/platforms/blacklink/platform.c:245-290 | The result is 0 or -1. It is 0 exactly when the submission is accepted and the first event-loop call that ends the wait ran the callback with status COMPLETED, without an event-loop error and before the deadline. Every other first ending gives -1 |
| StlinkUsb.LateCompletionFails | src/platforms/blacklink/platform.c:266-281 | A COMPLETED callback that arrives in the same call as the one-second deadline still fails the wait |
| Adiv5.Dp.constructor | src/platforms/blacklink/adiv5_swdp.c:42 | A `calloc`ed debug port has a zero IDCODE, no fault, no device and no bound operation |
| Swdp.LowAccessResult | src/platforms/blacklink/adiv5_swdp.c:72-88 | WAIT gives the timeout and only WAIT does; FAIL gives 0; OK gives the register on a read and 0 on a write (`response` is never assigned there) |
| Swdp.FaultAfter | src/platforms/blacklink/adiv5_swdp.c:84-86 | The sticky fault becomes 1 on FAIL and is otherwise unchanged, never cleared |
| Swdp.SwdpLowAccess | src/platforms/blacklink/adiv5_swdp.c:69-89 | Exactly one transaction is issued, a read or a write by direction; the result and the new fault are those of its reply |
| Swdp.SwdpRead | src/platforms/blacklink/adiv5_swdp.c:56-67 | A DP address gives exactly one read at the address, returning its result. An AP address gives a read at the address, then a read of RDBUFF whose result is returned; a WAIT on the first raises before the second is issued |
| Swdp.StatusScenario | src/platforms/blacklink/adiv5_swdp.c:81-87 | Composed with the status classification, probe statuses 0x10 and 0x14 raise, 0x80 returns a value keeping the fault, and 0x81 sets the fault and returns 0 |
| Swdp.SwdpScan | src/platforms/blacklink/adiv5_swdp.c:39-55 | The scan creates a fresh DP with the probe's core ID and fault 0, binds read and low_access to the SW-DP, leaves error and abort unbound, and returns 0 |
| JtagDp.SentinelFrom | src/platforms/stlinkv2/adiv5_jtagdp.c:68 | From any entry the walk reaches an entry with IDCODE 0, and none before it has IDCODE 0 |
| JtagDp.TableEnd | src/platforms/stlinkv2/adiv5_jtagdp.c:68 | The table search stops at the first entry whose IDCODE is 0 |
| JtagDp.FirstMatchFrom | src/platforms/stlinkv2/adiv5_jtagdp.c:68-74 | The search result is a matching entry before the sentinel with no match before it, or none when nothing before the sentinel matches |
| JtagDp.TableSearch | src/platforms/stlinkv2/adiv5_jtagdp.c:68-74 | The inner loop stops at the first matching entry; later entries are not examined |
| JtagDp.ClaimsFor | src/platforms/stlinkv2/adiv5_jtagdp.c:67-74 | Every claimed device is on the chain, and device numbers strictly increase, so each device gets at most one handler |
| JtagDp.ClaimedIff | src/platforms/stlinkv2/adiv5_jtagdp.c:67-74 | Device i goes to handler h exactly when it is on the chain, some entry before the sentinel matches it, and the first such entry names h. An unmatched device or a null handler gives no call |
| JtagDp.JtagChain.constructor | src/platforms/stlinkv2/adiv5_jtagdp.c:50-51 | The global array has JTAG_MAX_DEVS+1 zeroed devices and a zero count |
| JtagDp.JtagChain.Reset | src/platforms/stlinkv2/adiv5_jtagdp.c:59-60 | The count becomes 0 and the whole device array is zeroed |
| JtagDp.JtagChain.Fill | src/platforms/stlinkv2/adiv5_jtagdp.c:63-66 | The count is the number of IDCODEs; device k gets the k-th IDCODE in chain order, and the rest stays zero |
| JtagDp.JtagChain.AdiV5JtagDp | src/platforms/stlinkv2/adiv5_jtagdp.c:79-92 | The handler's DP is fresh, belongs to the device, carries its IDCODE, has fault 0 and has all four operations bound to the JTAG-DP |
| JtagDp.JtagChain.Classify | src/platforms/stlinkv2/adiv5_jtagdp.c:68-74 | One device yields the handler call of its first match, if that entry has a handler, and nothing else |
| JtagDp.JtagChain.ClassifyAll | src/platforms/stlinkv2/adiv5_jtagdp.c:67-74 | The outer loop yields exactly the handler calls of `ClaimsFor`, in chain order |
| JtagDp.JtagChain.JtagScan | src/platforms/stlinkv2/adiv5_jtagdp.c:53-77 | The scan always clears the chain first. If entering JTAG fails it returns 0 with the chain empty. Otherwise device k gets the k-th IDCODE, the rest stays zero, the handler calls are those of `ClaimsFor`, and it returns the device count |
| FtdiCable.PinsAreSingleBits | src/platforms/libftdi/platform.h:90-100 | PIN0..PIN7 are the bits 1<<0 .. 1<<7 and pairwise distinct |
| FtdiCable.MpsseAliases | src/platforms/libftdi/platform.h:89-96 | TCK, TDI, TDO and TMS alias PIN0..PIN3 |
| FtdiCable.InitializersPin6 | src/platforms/libftdi/platform.c:45-52 | The C initializers 0, PIN6 and ~PIN6 denote the unset, positive-PIN6 and negative-complement fields |
| FtdiCable.InitializersPin3 | src/platforms/libftdi/platform.c:112-113 | PIN3 and ~PIN3 denote the positive and negative fields used by "ftdijtag" |
| FtdiCable.InitializersPin1 | src/platforms/libftdi/platform.c:143-146 | PIN1 and ~PIN1 denote the positive and negative fields used by "ftdiswd" |
| FtdiCable.CableTableEntries | src/platforms/libftdi/platform.c:37-246 | The table has the 13 entries in source order, each with its name, USB vendor and product, interface, and initial DBUS/CBUS data and direction bytes worked out from its pin expressions |
| FtdiCable.DefaultCableIsFtdi | src/platforms/libftdi/platform.c:188-198 | The ninth table entry is the first one named "ftdi" |
| FtdiCable.MergeSetsBits | src/platforms/libftdi/platform.c:329-330 | An OR merge sets every bit of its mask, keeps every bit outside it, and never clears a bit |
| FtdiCable.MergeClearsBits | src/platforms/libftdi/platform.c:331-332 | An AND merge clears every bit outside its mask, keeps every bit inside it, and never sets a bit |
| FtdiCable.MergeAsWritten | src/platforms/libftdi/platform.c:329-336 | The merge as written agrees with the intended one on every non-zero field, and yields 0 on a zero field |
| FtdiCable.MergeIdempotent | src/platforms/libftdi/platform.c:329-349 | Merging the same field twice is merging it once |
| FtdiCable.MergePulseSettles | src/platforms/libftdi/platform.c:329-349 | Merging any two fields in turn, then again, changes nothing the first pair did not |
| FtdiCable.ApplyData | src/platforms/libftdi/platform.c:328-353 | The intended update, used as the reference: each bus byte is the merge of its own field, so a group with both fields zero is unchanged |
| FtdiCable.ApplyDataAsWritten | src/platforms/libftdi/platform.c:328-353 | The update as written. An inactive group is unchanged. In an active group a zero field clears its byte, and a non-zero field merges into it |
| FtdiCable.AsWrittenAgrees | src/platforms/libftdi/platform.c:328-353 | The written and the intended update agree whenever no active group has a zero field |
| FtdiCable.AsWrittenClearsDirection | src/platforms/libftdi/platform.c:328-353 | As written, asserting reset on "ftdijtag" clears cbus_ddr from 0x1F to 0, and either transition on "turtelizer" clears dbus_ddr from 0x1B to 0. The intended merge keeps both |
| FtdiCable.SetDataCommand | src/platforms/libftdi/platform.c:337-353 | The command is 0, 3 or 6 bytes, empty exactly when no group is active. An active low group gives SET_BITS_LOW with the new DBUS pair first; an active high group gives SET_BITS_HIGH with the new CBUS pair last |
| FtdiCable.SrstCycleSettles | src/platforms/libftdi/platform.c:360-366 | With the intended merge, a second assert-then-release pulse leaves the bus bytes as the first one did |
| FtdiCable.StepIdempotent | src/platforms/libftdi/platform.c:328-349 | As written, updating a byte twice with the same field and activity is updating it once |
| FtdiCable.StepPulseSettles | src/platforms/libftdi/platform.c:328-349 | As written, applying two byte updates in turn and then again changes nothing the first pair did not |
| FtdiCable.SrstCycleAsWrittenSettles | src/platforms/libftdi/platform.c:360-366 | As written, a second assert-then-release pulse leaves the bus bytes as the first one did |
| FtdiCable.TableSrstCycle | src/platforms/libftdi/platform.c:39-174 | With the intended merge, a pulse restores the initial bus bytes of "flossjtag", "ftdijtag", "ftdiswd" and "turtelizer". It leaves "usbmate" with PIN6 high where its initial DBUS data has it low |
| FtdiCable.TableSrstCycleAsWritten | src/platforms/libftdi/platform.c:39-174 | As written, a pulse restores the initial bus bytes of "flossjtag" and "ftdiswd". It leaves "ftdijtag" with cbus_ddr 0 and "turtelizer" with dbus_ddr 0 |
| FtdiCable.ReadbackPin | src/platforms/libftdi/platform.c:372-385 | In priority order: the dedicated command and pin when both are set; else GET_BITS_LOW with the low byte of the low assert data, when both low assert fields are set; else GET_BITS_HIGH with the low byte of the high assert data, when both high assert fields are set; none exactly when all three fail |
| FtdiCable.SinglePinConvention | src/platforms/libftdi/platform.c:390-393 | PINk reads as asserted exactly when bit k is high, and ~PINk exactly when bit k is low, for all eight pins |
| FtdiCable.PinBelowOrTop | src/platforms/libftdi/platform.c:390 | Every pin takes the active-high branch of the test and every complemented pin the active-low branch |
| FtdiCable.TableReadback | src/platforms/libftdi/platform.c:39-246 | The read-back command and pin of each table cable that has one, and none for "olimex", "ftdi" and "digilent" |
| FtdiCable.PairAssertDrivesLow | src/platforms/libftdi/platform.h:63-66 | An assert pair {~p, p} drives the bits of p low and makes them outputs |
| FtdiCable.PairReleaseFloatsHigh | src/platforms/libftdi/platform.h:67-70 | Releasing with {p, ~p} after asserting sets the bits of p high and makes them inputs |
| FtdiCable.PairKeepsOtherBits | src/platforms/libftdi/platform.h:63-70 | Asserting and releasing a pair leaves every bit outside p as it was |
| FtdiCable.PairReadsBack | src/platforms/libftdi/platform.h:71-75 | For a single-pin pair, reading back through the complemented pin reports reset exactly while it is asserted |
| FtdiPlatform.FlattenAppend | src/platforms/libftdi/platform.c:397-409 | One more USB write appends exactly its bytes to what was sent |
| FtdiPlatform.Platform.constructor | src/platforms/libftdi/platform.c:32-34 | The platform starts with the selected cable's bus bytes, an empty 4096-byte buffer and nothing issued or sent |
| FtdiPlatform.Platform.Flush | src/platforms/libftdi/platform.c:397-409 | One USB write of exactly the pending bytes, after which nothing is pending and everything issued has been sent |
| FtdiPlatform.Platform.Write | src/platforms/libftdi/platform.c:411-417 | It flushes first exactly when bufptr + size reaches 4096, then appends the bytes in order, and returns the size. With size below 4096, bufptr stays below 4096 |
| FtdiPlatform.Platform.Append | src/platforms/libftdi/platform.c:414-415 | The bytes land right after the pending ones and nothing is sent |
| FtdiPlatform.Platform.Read | src/platforms/libftdi/platform.c:419-434 | SEND_IMMEDIATE is appended and the buffer flushed, so every byte issued before the read has been sent. The device's reply and its size are returned |
| FtdiPlatform.Platform.MergeData | src/platforms/libftdi/platform.c:324-353 | The bus bytes become the update as written (`ApplyDataAsWritten`) of the old ones, and the command built in `cmd[6]` is `SetDataCommand` of the new bytes |
| FtdiPlatform.Platform.WriteAndFlush | src/platforms/libftdi/platform.c:354-357 | After a write and a flush, everything issued has been sent and nothing is pending |
| FtdiPlatform.Platform.SetData | src/platforms/libftdi/platform.c:324-358 | The bus bytes are updated as written by the descriptor and the command is issued. A non-empty command is sent at once, after what was already sent, which stays as it was; an empty one leaves the buffer and the log untouched |
| FtdiPlatform.Platform.SrstSetVal | src/platforms/libftdi/platform.c:360-366 | It applies the cable's assert or release descriptor as written, as `SetData` does: the bus bytes, the command issued, and the flush of a non-empty command after what was already sent |
| FtdiPlatform.Platform.SrstGetVal | src/platforms/libftdi/platform.c:368-395 | Without a read-back pin it returns false and issues nothing. Otherwise it issues the read-back command and SEND_IMMEDIATE, sends them, and returns the pin convention applied to the byte read |
| FtdiPlatform.Put3 | src/platforms/libftdi/platform.c:337-339 | Three bytes are stored at the index, keeping what lies before it |
| FtdiPlatform.LookupCable | src/platforms/libftdi/platform.c:266-269 | The index is that of the first entry with the requested name, or the table size when no entry has it |
| FtdiPlatform.Init | src/platforms/libftdi/platform.c:266-276 | The active cable is the first table entry with the requested name, and the platform starts from that entry's bus bytes with an empty buffer and nothing issued or sent; with no such entry the program exits (a null platform) |
| FtdiPlatform.DefaultSelectsFtdi | src/platforms/libftdi/platform.c:254-276 | Without a name the lookup selects entry 8, the "ftdi" cable |

## Left out

- USB I/O is not modelled: libusb enumeration, configuration, interface claim, open and close, bulk transfers and clear-halt in `send_recv`, and libftdi open, latency, baud rate, chunk size, `ftdi_write_data` and the `ftdi_read_data` loop. Replies are parameters; flushes append to a ghost log.
- The timed polling loop and cancel of `submit_wait` depend on the wall clock. The successive event-loop calls are the input `calls`: each may fail, run the callback, or pass the deadline. The precondition that some call ends the wait stands for the one-second deadline, which always ends the loop.
- `platform_target_voltage` of both platforms is left out: it is floating-point arithmetic and `sprintf`.
- Left out as I/O or bare-metal code: `vasprintf`, `platform_delay`, `platform_time_ms`, the signal and exit handlers, DEBUG printing, `getopt` parsing, and the serial-number string compare. The compare is reduced to the flag `serialOk`.
- The enumeration loop's `break` on a matching serial, the multiple-device refusal, and the open-failure paths are not modelled. `ApiAfter` folds over the probes that were opened.
- The JTAG-DP operation stubs `read`, `error`, `low_access` and `abort` are left out: they return 0 or do nothing. Only their binding is modelled.
- The `#if 0` SW-DP error and abort code is dead and left out.
- The SW-DP's `adiv5_dp_init`, `target_list_free` and the ST-Link register and mode calls are external collaborators with no source in this model. They become parameters or the `Link` oracle. The constants ADIV5_APnDP and ADIV5_DP_RDBUFF are parameters of `SwdpRead`.
- The `dev_descr` table and every handler but the ADIv5 JTAG-DP one have no source in this model. They are parameters, and a ghost log records which handler each device is given to.
- The IR lengths argument of `jtag_scan` is unused by the code and is left out.
- A transfer's flag word is modelled as the set of its set bits, because only IS_DONE and HAS_ERROR are ever set.
- A descriptor field (`int` in the C struct) is modelled by what the code asks of it: its sign and its low byte. `Denotes` relates a C initializer to that form.
- The initializers `.init`, `.mpsse_swd_read`, `.mpsse_swd_write`, `.swd_read`, `.swd_write`, `.target_voltage_cmd` and `.target_voltage_pin` of the "usbmate", "ft232h_resistor_swd" and "ftdiswd" entries name fields that the struct layout in platform.h does not have. They are left out, as is the never-initialised `bitbang_swd_direct`.
- The FTDI serial-number argument is passed only to the USB open, so it is left out with it.
- FtdiPlatform.Platform: the code updates the selected `cable_desc[]` entry through `active_cable`. The model keeps the entry constant and holds the four updated bus bytes in the platform, so the aliasing is not modelled.
- FtdiPlatform.Platform.Write: requires a size of at most 4096, which the `memcpy` into the 4096-byte buffer itself demands. Sizes the C code would accept beyond that overflow the buffer.
- FtdiPlatform.Platform.Read: requires `bufptr` below 4096. A preceding write of exactly 4096 bytes would make the SEND_IMMEDIATE store overflow the buffer.
- MpsseSk, MpsseDo, MpsseDi, MpsseCs: assumed to be 1, 2, 4 and 8, the standard MPSSE low-byte order. They are not defined in the files modelled, and several table bytes depend on them.
- FtdiPlatform.Init: says which entry a name selects, but states no uniqueness of names across the table; only the default name is worked out (`DefaultSelectsFtdi`).
- JtagDp.JtagChain.Classify: the handler is called after the table walk returns, rather than from inside it before the `break`. The effect is the same.
- StlinkUsb.Stlink.SrstSetVal: the status check's verdict is computed and discarded, as in the code. Only the command sent is stated.

## Findings

| source | as written | input that shows it | evidently intended | confidence | as-written member | corrected member |
|---|---|---|---|---|---|---|
| src/platforms/libftdi/platform.c:328-353 | In an active group, every field that is not positive is ANDed in, a zero field included, so a zero field clears its whole byte | "ftdijtag" assert descriptor {0, 0, ~PIN3, 0}: cbus_ddr goes from 0x1F to 0x00. "turtelizer" {0x40, 0, 0, 0}: dbus_ddr goes from 0x1B to 0x00, turning the JTAG lines into inputs | A zero field leaves its byte unchanged, as the struct comments' examples `{0, 0, ~PIN1, PIN1}` imply | not executed | FtdiCable.TableSrstCycleAsWritten | FtdiCable.ApplyData |

The platform class `FtdiPlatform.Platform` follows the code as written: `MergeData`, `SetData` and
`SrstSetVal` state their new bus bytes through `FtdiCable.ApplyDataAsWritten`. The corrected update
`FtdiCable.ApplyData` is the reference it is compared with. `FtdiCable.AsWrittenAgrees` says the two agree
whenever no active group has a zero field, and `FtdiCable.SrstCycleSettles` and `FtdiCable.TableSrstCycle`
state the intended behaviour of a reset pulse.
