# semu-c64 core in Dafny

This project models two parts of semu-c64, a small RISC-V system emulator
that also runs on a Commodore 64 with a RAM Expansion Unit (REU).

* **REU image builder** (`mk_l2e_reu.py`), in `reu_image.dfy`. The script
  builds a 2 MiB (2,097,152-byte) REU container. It puts the program image
  `P` at offset 0 and the device-tree blob `D` at 2,080,768. That is the
  start of the last 16 KiB. Every other byte is zero. `ReuImage.Layout` is
  the byte sequence the four `write` calls produce.
  - Each pad is Python's `b"\x00" * n`, which is empty when `n` is negative.
    So an oversized input is not rejected: it only loses its pad. An image
    longer than 2,080,768 bytes pushes `D` later and makes the file longer
    than 2 MiB.
  - The script does not check input sizes, and neither does the model.
* **Emulator core** (`main.c`), in four modules:
  - `machine.dfy`: 32-bit words and the C conversions between `int32_t`
    and `uint32_t`; the register numbers, exception causes and interrupt
    bit used; the board configuration; bit set/clear on interrupt words.
  - `bus.dfy`: the physical address decode that `mem_load` and `mem_store`
    share (RAM, PLIC, UART, virtio-net, virtio-blk, or a fault).
  - `sbi.dfy`: the answers of the RISC-V Supervisor Binary Interface (SBI)
    calls the emulator implements, as pure functions. These are the Base,
    Timer and System Reset extensions of SBI v1.0: chapters 4, 6 and 10,
    with the calling convention of chapter 3.
  - `emulator.dfy`: the hart (`vm_t`) and board (`emu_state_t`) as
    classes. Their methods change state in place as the C code does: the
    ecall handler, the fetch path, the load/store routing, the interrupt
    line updates, the timer compare, and what the main loop does with a
    step's outcome.

Registers, addresses and counters are `uint32_t` in C. Here they are
integers in [0, 2^32). Shifts and masks on them are written as division
and remainder by powers of two, which is what they compute on unsigned
values. `sip` and `plic.active` are updated with `|=` and `&= ~`, so they
are `bv32`.

Several constants live in headers this model does not include. They take
their standard values:
- SBI extension and function IDs, and the SBI error codes, come from SBI
  v1.0.
- a0, a1, a6 and a7 are registers 10, 11, 16 and 17 of the RISC-V calling
  convention.
- The exception causes (fetch fault 1, load fault 5, store fault 7, ecall
  from S-mode 9) and the `sip.STIP` bit (bit 5) come from the RISC-V
  privileged architecture.

`RAM_SIZE`, the three `IRQ_*_BIT` masks and the `SEMU_HAS(VIRTIONET)` /
`SEMU_HAS(VIRTIOBLK)` build switches are fields of `Machine.Config`.

## Model

| member | source | states |
|---|---|---|
| `ReuImage.Layout` | mk_l2e_reu.py:11-14 | the output is `max(2,080,768, len(P)) + max(16,384, len(D))` bytes long and starts with `P` |
| `ReuImage.ZeroFill` | mk_l2e_reu.py:12-14 | `b"\x00" * n` is `max(0, n)` zero bytes: empty for a negative count |
| `ReuImage.Tail` | mk_l2e_reu.py:13-14 | the blob and its pad take `max(DTB_SIZE, len(D))` bytes and start with `D` |
| `ReuImage.LayoutSplit` | mk_l2e_reu.py:11-14 | the image is the program section, `max(2,080,768, len(P))` bytes long, followed by the tail section |
| `ReuImage.LayoutLength` | mk_l2e_reu.py:6-14 | the length is `max(REUSIZE - DTB_SIZE, len(P)) + max(DTB_SIZE, len(D))`; it is exactly 2,097,152 when both inputs fit |
| `ReuImage.LayoutStartsWithProgram` | mk_l2e_reu.py:11 | the output starts with `P` byte for byte, for any input |
| `ReuImage.LayoutEndsWithTail` | mk_l2e_reu.py:13-14 | the last `max(DTB_SIZE, len(D))` bytes are `D` followed by zeros |
| `ReuImage.LayoutPlacesDtb` | mk_l2e_reu.py:11-13 | when `P` fits, `D` starts at offset 2,080,768 |
| `ReuImage.LayoutZeroElsewhere` | mk_l2e_reu.py:12-14 | every byte outside `P` and `D` is zero, for any input |
| `ReuImage.LayoutMatchesReference` | mk_l2e_reu.py:6-14 | for inputs that fit, the output is 2 MiB and equals, byte by byte, the reference description: `P`, zeros, `D` at 2,080,768, zeros |
| `ReuImage.LayoutClampsPads` | mk_l2e_reu.py:12-14 | for any input the output is `P ++ zeros(max(0, 2,080,768 - len(P))) ++ D ++ zeros(max(0, 16,384 - len(D)))`, with the zeros as an independent constant sequence: an oversized input is not an error |
| `ReuImage.OversizedProgramShiftsDtb` | mk_l2e_reu.py:11-13 | an image longer than its slot loses its pad, `D` follows it directly, and the file grows beyond 2 MiB |
| `ReuImage.EmptyInputsGiveZeroImage` | mk_l2e_reu.py:11-14 | empty inputs give 2,097,152 zero bytes |
| `ReuImage.MaximalInputsHaveNoPadding` | mk_l2e_reu.py:11-14 | when `len(P) = 2,080,768` and `len(D) = 16,384` the output is exactly `P ++ D` |
| `ReuImage.SmallInputsExample` | mk_l2e_reu.py:6-14 | `P = 01 02 03`, `D = AA BB`: `P` at 0, zeros to 2,080,768, `D` there, zeros to the end |
| `Machine.ToU32` | main.c:241-242 | `(uint32_t)` of an `int32_t` is the value modulo 2^32, unchanged when non-negative |
| `Machine.ToI32` | main.c:213 | `(int32_t)` of a register is its two's-complement reading, congruent modulo 2^32 and unchanged below 2^31 |
| `Machine.WrapI32` | main.c:194-207 | storing a wider constant in an `int32_t` field keeps it modulo 2^32 |
| `Machine.ConversionsRoundTrip` | main.c:213-242 | the two conversions are inverse to each other |
| `Machine.WithBitsEffect` | main.c:44 | `active \|= bit` sets the bits of `bit` and keeps every other bit |
| `Machine.WithoutBitsEffect` | main.c:46 | `active &= ~bit` clears the bits of `bit` and keeps every other bit |
| `Machine.SetBitsEffect` | main.c:43-46 | the chosen line is set when the source is pending and cleared otherwise; every other line keeps its state |
| `Bus.Decode` | main.c:79-109 | as address windows: RAM below `RAM_SIZE` at the same address; above it, PLIC for 0xF0000000-0xF00FFFFF and 0xF0200000-0xF02FFFFF; UART for 0xF4000000-0xF40FFFFF; virtio-net for 0xF4100000-0xF41FFFFF and virtio-blk for 0xF4200000-0xF42FFFFF when built in. Each device gets the offset from its base |
| `Bus.DecodeFaultsOutsideWindows` | main.c:84-110 | above RAM, any address outside the PLIC and UART windows, and outside the virtio windows of the devices that are built in, faults: on a board without virtio, 0xF41xxxxx and 0xF42xxxxx fault too |
| `Sbi.BaseCall` | main.c:197-221 | a Base FID succeeds exactly when it is 0 to 6; any other FID gives (NOT_SUPPORTED, 0); PROBE_EXTENSION returns 1 exactly when a0 names BASE, TIMER or RST, and 0 otherwise |
| `Sbi.TimerCall` | main.c:164-171 | SET_TIMER succeeds and every other Timer FID gives (NOT_SUPPORTED, 0); the value is always 0 |
| `Sbi.ResetCall` | main.c:177-190 | SYSTEM_RESET succeeds and every other System Reset FID gives (NOT_SUPPORTED, 0); the value is always 0 |
| `Sbi.EcallRet` | main.c:225-240 | an unknown EID gives (NOT_SUPPORTED, 0); the error is SUCCESS or NOT_SUPPORTED with value 0; success exactly for the seven Base FIDs, SET_TIMER and SYSTEM_RESET |
| `Sbi.EcallEffect` | main.c:161-191 | only SET_TIMER changes the timer, and it stores (a0, a1) as the (low, high) words; only SYSTEM_RESET stops; a call that changes state returns (SUCCESS, 0) |
| `Sbi.BaseGetterRegisters` | main.c:193-242 | after a Base getter, (a0, a1) is (0, 3) for the spec version, (0, 0x999) for the implementation ID, (0, 1) for its version, (0, 0x12345678) for mvendorid, (0, 0x80000001) for marchid and (0, 1) for mimpid; an unknown FID gives (0xFFFFFFFE, 0) |
| `Sbi.UnsupportedCallRegisters` | main.c:225-242 | an unknown EID, or an unknown FID of a known extension, leaves (0xFFFFFFFE, 0) in (a0, a1) and changes nothing else |
| `Emulator.TimerExpired` | main.c:508-509 | the word-by-word test is the 64-bit comparison of (insn_count_hi, insn_count) with (timer_hi, timer_lo) |
| `Emulator.Classify` | main.c:519-534 | no error: continue; an exception with cause ecall-from-S: SBI call; any other exception: trap; any other error: exit with status 2 |
| `Emulator.EmuState.constructor` | main.c:400-466 | a cleared board: zero RAM of `RAM_SIZE` bytes (as after the memset at line 418, before the kernel image is loaded), no interrupt lines, not stopped, timer compare value 0xFFFFFFFF:0xFFFFFFFF |
| `Emulator.Vm.constructor` | main.c:464-471 | boot registers: a0 (hart ID) 0, a1 the device-tree address, all else 0, no error |
| `Emulator.Vm.SetException` | main.c:28 | records a pending exception with its cause and value |
| `Emulator.Vm.MemFetch` | main.c:24-37 | at or above `RAM_SIZE`: fetch fault, the destination keeps its old value, exc_val is unchanged; below: the RAM word at `addr >> 2`, no error |
| `Emulator.Vm.MemAccess` | main.c:74-150 | loads and stores share the decode; an address that decodes to nothing raises a load fault or a store fault, with exc_val unchanged; for any other address the routing alone leaves the error state alone |
| `Emulator.Vm.UpdateUartInterrupts` | main.c:39-48 | the UART line of `plic.active` is raised exactly when the UART has pending interrupts; the other lines are kept |
| `Emulator.Vm.UpdateVnetInterrupts` | main.c:50-60 | the virtio-net line follows `InterruptStatus`; the other lines are kept |
| `Emulator.Vm.UpdateVblkInterrupts` | main.c:62-72 | the virtio-blk line follows `InterruptStatus`; the other lines are kept |
| `Emulator.Vm.UpdateTimerInterrupt` | main.c:508-512 | STI in `sip` is set exactly when the 64-bit instruction count exceeds the timer compare value; the other bits are kept |
| `Emulator.Vm.HandleSbiEcallTimer` | main.c:161-172 | SET_TIMER copies a0 to timer_lo and a1 to timer_hi and succeeds; any other FID is not supported and changes nothing |
| `Emulator.Vm.HandleSbiEcallRst` | main.c:174-191 | SYSTEM_RESET sets `stopped` and succeeds; any other FID is not supported and changes nothing |
| `Emulator.Vm.HandleSbiEcall` | main.c:223-246 | for every EID: a0 becomes `(uint32_t) ret.error`, a1 `(uint32_t) ret.value`, the other registers are unchanged, `error` is reset to ERR_NONE, and the timer and stop flag change only as the call's effect says |
| `Emulator.Vm.ResolveStep` | main.c:519-534 | the action is the step's classification; an S-mode ecall is answered exactly as `HandleSbiEcall` answers it (a0, a1, timer, stop flag, error cleared); no error (continue) changes nothing and leaves `error` at ERR_NONE; a trap or a fatal error leaves the registers, timer and stop flag unchanged, and a fatal error keeps its error state for the report |

## Left out

- File I/O: the `open(...).read()` and `outf.write` calls of `mk_l2e_reu.py`, and `map_file`, `unmap_files`, `mmap` and the final `fwrite` of `reufile.semu.written` in `main.c`. For `mk_l2e_reu.py` the model is the byte sequences they carry.
- `handle_options`, `usage`, `print_some_emu_state`, and all `printf`/`fprintf` diagnostics, including the message printed on system reset. These are argument parsing and output only.
- The C64-only paths: `loadword_reu` in `mem_fetch`, `load_from_reu`, `save_to_reu`, and the jump to the reset vector 0xfce2. These are calls into C64 hardware.
- Emulator.EmuState.constructor: the model's RAM starts zeroed, as it is after main.c:418. The kernel image that `map_file` loads at offset 0 (main.c:428-430) is not modelled.
- Checkpoints (`load_all` and `save_all`). persistence.h is not part of this model.
- The main loop as a whole:
  - the `peripheral_update_ctr` schedule, which runs the device and timer checks once every 256 steps;
  - `vm_step`, `vm_trap` and `vm_error_report`;
  - `ram_read` and `ram_write`;
  - the PLIC, UART and virtio register handlers;
  - `plic_update_interrupts`, `u8250_check_ready`, and the virtio init and refresh functions.
  These live in files that are not part of this model.
- `u8250_update_interrupts` is not modelled. Its result, the UART's new `pending_ints`, is a parameter of `Emulator.Vm.UpdateUartInterrupts`.
- Emulator.Vm.ResolveStep: does not model `vm_trap` (riscv.c is not part of this model). It promises nothing about the error state after a trap, and nothing about the trap CSRs and program counter that `vm_trap` sets.
- Emulator.Vm.MemAccess: models only the routing decision and the fault. It does not model the device handler call or the interrupt refresh that follows it.
- Emulator.Vm.SetException: riscv.c, which defines `vm_set_exception`, is not part of this model. It is assumed to record ERR_EXCEPTION with the given cause and value.
- Emulator.Vm.constructor: takes the device-tree address as a parameter. It does not compute it from `RAM_SIZE - INITRD_SIZE - DTB_SIZE`, whose sizes are not part of this model. `page_table_addr` and `s_mode` are not modelled.
- The value of the `(int32_t)` conversion of an out-of-range value is implementation-defined in C. The model uses the modular conversion that the emulator's compilers perform.
