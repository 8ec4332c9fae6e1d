/**
 The imperative part of the emulator's main loop: the hart state (`vm_t`)
 and the board state behind it (`emu_state_t`), the SBI ecall handler, the
 instruction fetch path, the routing half of the load and store paths, the
 interrupt-line bookkeeping, the timer compare, and what the loop does with
 the outcome of a step. Device register handlers, `plic_update_interrupts`,
 `vm_step` and `vm_trap` are outside this model.
 */
module Emulator {
  import opened Machine
  import opened Bus
  import Sbi

  /** `emu_state_t`: RAM, the timer compare value, the stop flag and the interrupt sources. */
  class EmuState {
    const cfg: Config
    /** Main RAM as 32-bit words. */
    var ram: array<u32>
    var timerLo: u32
    var timerHi: u32
    var stopped: bool
    /** `plic.active`: one bit per asserted interrupt line. */
    var plicActive: bv32
    /** `uart.pending_ints`, as last recomputed by the UART model. */
    var uartPendingInts: u32
    /** `vnet.InterruptStatus` and `vblk.InterruptStatus`. */
    var vnetInterruptStatus: u32
    var vblkInterruptStatus: u32

    /**
     A freshly cleared board, as at start-up when no checkpoint is loaded:
     zeroed RAM and devices, not stopped, and the timer compare value at
     its maximum so that no timer interrupt fires.
     */
    constructor (cfg: Config)
      requires cfg.ramSize % 4 == 0
      ensures this.cfg == cfg && fresh(ram)
      ensures 4 * ram.Length == cfg.ramSize
      ensures forall i :: 0 <= i < ram.Length ==> ram[i] == 0
      ensures timerLo == 0xFFFF_FFFF && timerHi == 0xFFFF_FFFF && !stopped
      ensures plicActive == 0 && uartPendingInts == 0
      ensures vnetInterruptStatus == 0 && vblkInterruptStatus == 0
    {
      this.cfg := cfg;
      ram := new u32[cfg.ramSize / 4](_ => 0);
      timerLo, timerHi := 0xFFFF_FFFF, 0xFFFF_FFFF;
      stopped := false;
      plicActive := 0;
      uartPendingInts := 0;
      vnetInterruptStatus, vblkInterruptStatus := 0, 0;
    }
  }

  /** The 64-bit value of a (high word, low word) pair. */
  function Word64(hi: u32, lo: u32): nat
  {
    hi * WORD_RANGE + lo
  }

  /**
   The timer test of the main loop, done word by word: the instruction
   counter has passed the timer compare value. It is the 64-bit comparison.
   */
  function TimerExpired(countHi: u32, countLo: u32, timerHi: u32, timerLo: u32): (r: bool)
    ensures r <==> Word64(countHi, countLo) > Word64(timerHi, timerLo)
  {
    countHi > timerHi || (countHi == timerHi && countLo > timerLo)
  }

  /** What the main loop does after `vm_step`. */
  datatype StepAction =
    | Continue        // no error: next instruction
    | HandleEcall     // an ecall from S-mode: answer the SBI call and go on
    | Trap            // any other exception: deliver it to the guest and go on
    | Exit(code: int) // any other error: report it and leave with status 2

  /** The classification of a step's outcome. */
  function Classify(error: VmError, excCause: u32): (a: StepAction)
    ensures a == Continue <==> error == ErrNone
    ensures a == HandleEcall <==> error == ErrException && excCause == EXC_ECALL_S
    ensures a == Trap <==> error == ErrException && excCause != EXC_ECALL_S
    ensures a.Exit? <==> error.ErrOther?
    ensures a.Exit? ==> a.code == 2
  {
    if error == ErrNone then Continue
    else if error == ErrException && excCause == EXC_ECALL_S then HandleEcall
    else if error == ErrException then Trap
    else Exit(2)
  }

  /** `vm_t`: the hart's registers, error state, pending interrupts and instruction counter. */
  class Vm {
    var xRegs: array<u32>
    var error: VmError
    var excCause: u32
    var excVal: u32
    /** Supervisor interrupt-pending bits. */
    var sip: bv32
    /** The 64-bit instruction counter as low and high words. */
    var insnCount: u32
    var insnCountHi: u32
    /** The board this hart belongs to (`vm->priv`). */
    const priv: EmuState

    ghost predicate Valid()
      reads this, priv
    {
      && xRegs.Length == REG_COUNT
      && 4 * priv.ram.Length == priv.cfg.ramSize
      && xRegs != priv.ram
    }

    /**
     A hart set up for boot: all registers zero except a1, which holds the
     address of the device tree (a0, the hart ID, is 0), and no error.
     */
    constructor (emu: EmuState, dtbAddr: u32)
      requires 4 * emu.ram.Length == emu.cfg.ramSize
      ensures Valid() && priv == emu && fresh(xRegs)
      ensures xRegs[..] == seq(REG_COUNT, i => if i == REG_A1 then dtbAddr else 0)
      ensures error == ErrNone && sip == 0 && insnCount == 0 && insnCountHi == 0
    {
      priv := emu;
      var regs := new u32[REG_COUNT](_ => 0);
      regs[REG_A1] := dtbAddr;
      xRegs := regs;
      error := ErrNone;
      excCause, excVal := 0, 0;
      sip := 0;
      insnCount, insnCountHi := 0, 0;
    }

    /** `vm_set_exception`: record a pending exception with its cause and value. */
    method SetException(cause: u32, val: u32)
      modifies this`error, this`excCause, this`excVal
      ensures error == ErrException && excCause == cause && excVal == val
    {
      error := ErrException;
      excCause := cause;
      excVal := val;
    }

    /**
     `mem_fetch`: outside RAM the fetch raises a fetch fault and the
     destination keeps its old value; inside RAM it reads the word that
     holds the address.
     */
    method MemFetch(addr: u32, value: u32) returns (v: u32)
      requires Valid()
      modifies this`error, this`excCause, this`excVal
      ensures addr >= priv.cfg.ramSize ==>
                v == value && error == ErrException && excCause == EXC_FETCH_FAULT
      ensures addr < priv.cfg.ramSize ==>
                addr / 4 < priv.ram.Length && v == priv.ram[addr / 4] && error == old(error)
      ensures excVal == old(excVal)
      ensures addr < priv.cfg.ramSize ==> excCause == old(excCause)
    {
      if addr >= priv.cfg.ramSize {
        SetException(EXC_FETCH_FAULT, excVal);
        return value;
      }
      v := priv.ram[addr / 4];
    }

    /**
     The routing of `mem_load` (`kind == Load`) and `mem_store`
     (`kind == Store`): the target the access is handed to, or, when the
     address decodes to no target, a load or store fault.
     */
    method MemAccess(kind: Access, addr: u32) returns (t: Target)
      modifies this`error, this`excCause, this`excVal
      ensures t == Decode(priv.cfg, addr)
      ensures t.Fault? ==> error == ErrException && excCause == FaultCause(kind)
      ensures !t.Fault? ==> error == old(error) && excCause == old(excCause)
      ensures excVal == old(excVal)
    {
      t := Decode(priv.cfg, addr);
      if t.Fault? {
        SetException(FaultCause(kind), excVal);
      }
    }

    /**
     `emu_update_uart_interrupts`: the UART recomputes its pending
     interrupts (to `pending`), and the UART line in `plic.active` is raised
     exactly when some are pending; the other lines keep their state.
     */
    method UpdateUartInterrupts(pending: u32)
      modifies priv`uartPendingInts, priv`plicActive
      ensures priv.uartPendingInts == pending
      ensures priv.plicActive == SetBits(old(priv.plicActive), priv.cfg.irqUartBit, pending != 0)
    {
      priv.uartPendingInts := pending;
      if priv.uartPendingInts != 0 {
        priv.plicActive := WithBits(priv.plicActive, priv.cfg.irqUartBit);
      } else {
        priv.plicActive := WithoutBits(priv.plicActive, priv.cfg.irqUartBit);
      }
    }

    /** `emu_update_vnet_interrupts`: the virtio-net line follows its interrupt status. */
    method UpdateVnetInterrupts()
      requires priv.cfg.hasVirtioNet
      modifies priv`plicActive
      ensures priv.plicActive
           == SetBits(old(priv.plicActive), priv.cfg.irqVnetBit, priv.vnetInterruptStatus != 0)
    {
      if priv.vnetInterruptStatus != 0 {
        priv.plicActive := WithBits(priv.plicActive, priv.cfg.irqVnetBit);
      } else {
        priv.plicActive := WithoutBits(priv.plicActive, priv.cfg.irqVnetBit);
      }
    }

    /** `emu_update_vblk_interrupts`: the virtio-blk line follows its interrupt status. */
    method UpdateVblkInterrupts()
      requires priv.cfg.hasVirtioBlk
      modifies priv`plicActive
      ensures priv.plicActive
           == SetBits(old(priv.plicActive), priv.cfg.irqVblkBit, priv.vblkInterruptStatus != 0)
    {
      if priv.vblkInterruptStatus != 0 {
        priv.plicActive := WithBits(priv.plicActive, priv.cfg.irqVblkBit);
      } else {
        priv.plicActive := WithoutBits(priv.plicActive, priv.cfg.irqVblkBit);
      }
    }

    /**
     The timer check of the main loop: the supervisor timer interrupt is
     raised in `sip` exactly when the instruction counter has passed the
     timer compare value, and lowered otherwise; no other bit changes.
     */
    method UpdateTimerInterrupt()
      modifies this`sip
      ensures sip == SetBits(old(sip), INT_STI_BIT, TimerExpired(insnCountHi, insnCount, priv.timerHi, priv.timerLo))
    {
      if insnCountHi > priv.timerHi || (insnCountHi == priv.timerHi && insnCount > priv.timerLo) {
        sip := WithBits(sip, INT_STI_BIT);
      } else {
        sip := WithoutBits(sip, INT_STI_BIT);
      }
    }

    /** `handle_sbi_ecall_TIMER`. */
    method HandleSbiEcallTimer(fid: i32) returns (ret: Sbi.SbiRet)
      requires Valid()
      modifies priv`timerLo, priv`timerHi
      ensures ret == Sbi.TimerCall(fid)
      ensures fid == Sbi.TIMER_SET_TIMER ==>
                priv.timerLo == xRegs[REG_A0] && priv.timerHi == xRegs[REG_A1]
      ensures fid != Sbi.TIMER_SET_TIMER ==>
                priv.timerLo == old(priv.timerLo) && priv.timerHi == old(priv.timerHi)
    {
      if fid == Sbi.TIMER_SET_TIMER {
        priv.timerLo := xRegs[REG_A0];
        priv.timerHi := xRegs[REG_A1];
        ret := Sbi.Success(0);
      } else {
        ret := Sbi.NOT_SUPPORTED;
      }
    }

    /** `handle_sbi_ecall_RST`. */
    method HandleSbiEcallRst(fid: i32) returns (ret: Sbi.SbiRet)
      modifies priv`stopped
      ensures ret == Sbi.ResetCall(fid)
      ensures priv.stopped == (fid == Sbi.RST_SYSTEM_RESET || old(priv.stopped))
    {
      if fid == Sbi.RST_SYSTEM_RESET {
        priv.stopped := true;
        ret := Sbi.Success(0);
      } else {
        ret := Sbi.NOT_SUPPORTED;
      }
    }

    /**
     `handle_sbi_ecall`: answer the call named by a7 and a6, write the
     error code and value into a0 and a1 as unsigned words, apply the
     call's effect, and clear the error so that execution continues.
     No other register and no other board state changes.
     */
    method HandleSbiEcall()
      requires Valid()
      modifies xRegs, this`error, priv`timerLo, priv`timerHi, priv`stopped
      ensures Valid()
      ensures var r := Sbi.EcallRet(old(xRegs[REG_A7]), old(xRegs[REG_A6]), old(xRegs[REG_A0]));
              xRegs[..] == old(xRegs[..])[REG_A0 := ToU32(r.error)][REG_A1 := ToU32(r.value)]
      ensures error == ErrNone
      ensures match Sbi.EcallEffect(old(xRegs[REG_A7]), old(xRegs[REG_A6]), old(xRegs[REG_A0]), old(xRegs[REG_A1]))
              case SetTimer(lo, hi) =>
                priv.timerLo == lo && priv.timerHi == hi && priv.stopped == old(priv.stopped)
              case Stop =>
                priv.stopped && priv.timerLo == old(priv.timerLo) && priv.timerHi == old(priv.timerHi)
              case NoEffect =>
                priv.stopped == old(priv.stopped)
                && priv.timerLo == old(priv.timerLo) && priv.timerHi == old(priv.timerHi)
    {
      var ret: Sbi.SbiRet;
      var eid := xRegs[REG_A7];
      if eid == Sbi.EID_BASE {
        ret := Sbi.BaseCall(ToI32(xRegs[REG_A6]), xRegs[REG_A0]);
      } else if eid == Sbi.EID_TIMER {
        ret := HandleSbiEcallTimer(ToI32(xRegs[REG_A6]));
      } else if eid == Sbi.EID_RST {
        ret := HandleSbiEcallRst(ToI32(xRegs[REG_A6]));
      } else {
        ret := Sbi.NOT_SUPPORTED;
      }
      xRegs[REG_A0] := ToU32(ret.error);
      xRegs[REG_A1] := ToU32(ret.value);
      error := ErrNone;
    }

    /**
     The main loop's handling of a step's outcome: an S-mode ecall is
     answered here, exactly as `HandleSbiEcall` does; a trap is handed to
     `vm_trap` and a fatal error to `vm_error_report`, both outside this
     model. Neither of those touches the integer registers, the timer or the
     stop flag; a fatal error also leaves the error state for the report.
     */
    method ResolveStep() returns (action: StepAction)
      requires Valid()
      modifies xRegs, this`error, priv`timerLo, priv`timerHi, priv`stopped
      ensures Valid()
      ensures action == Classify(old(error), old(excCause))
      ensures action == HandleEcall ==>
                var r := Sbi.EcallRet(old(xRegs[REG_A7]), old(xRegs[REG_A6]), old(xRegs[REG_A0]));
                xRegs[..] == old(xRegs[..])[REG_A0 := ToU32(r.error)][REG_A1 := ToU32(r.value)]
                && error == ErrNone
      ensures action == HandleEcall ==>
                match Sbi.EcallEffect(old(xRegs[REG_A7]), old(xRegs[REG_A6]), old(xRegs[REG_A0]), old(xRegs[REG_A1]))
                case SetTimer(lo, hi) =>
                  priv.timerLo == lo && priv.timerHi == hi && priv.stopped == old(priv.stopped)
                case Stop =>
                  priv.stopped && priv.timerLo == old(priv.timerLo) && priv.timerHi == old(priv.timerHi)
                case NoEffect =>
                  priv.stopped == old(priv.stopped)
                  && priv.timerLo == old(priv.timerLo) && priv.timerHi == old(priv.timerHi)
      ensures action != HandleEcall ==>
                xRegs[..] == old(xRegs[..])
                && priv.timerLo == old(priv.timerLo) && priv.timerHi == old(priv.timerHi)
                && priv.stopped == old(priv.stopped)
      ensures action == Continue ==> error == ErrNone
      ensures action == Continue || action.Exit? ==> error == old(error)
    {
      action := Classify(error, excCause);
      if action == HandleEcall {
        HandleSbiEcall();
      }
    }
  }
}
