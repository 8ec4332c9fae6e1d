/**
 The results of the Supervisor Binary Interface calls the emulator answers
 (RISC-V SBI v1.0): the Base extension (chapter 4), the Timer extension
 (chapter 6) and the System Reset extension (chapter 10). A call names its
 extension in a7 (EID) and its function in a6 (FID); the answer is an
 `int32_t` error code and an `int32_t` value, returned in a0 and a1
 (chapter 3, "Binary Encoding"). The state changes the Timer and System
 Reset calls make are described here as an `Effect` and carried out by the
 emulator's ecall handler.
 */
module Sbi {
  import opened Machine

  /** Extension IDs. */
  const EID_BASE: u32 := 0x10
  const EID_TIMER: u32 := 0x54494D45
  const EID_RST: u32 := 0x53525354

  /** Function IDs of the Base extension. */
  const BASE_GET_SBI_SPEC_VERSION: i32 := 0
  const BASE_GET_SBI_IMPL_ID: i32 := 1
  const BASE_GET_SBI_IMPL_VERSION: i32 := 2
  const BASE_PROBE_EXTENSION: i32 := 3
  const BASE_GET_MVENDORID: i32 := 4
  const BASE_GET_MARCHID: i32 := 5
  const BASE_GET_MIMPID: i32 := 6

  /** Function IDs of the Timer and System Reset extensions. */
  const TIMER_SET_TIMER: i32 := 0
  const RST_SYSTEM_RESET: i32 := 0

  /** Standard SBI error codes. */
  const SBI_SUCCESS: i32 := 0
  const SBI_ERR_NOT_SUPPORTED: i32 := -2

  /** What this implementation reports about itself and the hart. */
  const SBI_IMPL_ID: int := 0x999
  const SBI_IMPL_VERSION: int := 1
  const RV_MVENDORID: int := 0x12345678
  /** `(1UL << 31) | 1`, wider than `int32_t`. */
  const RV_MARCHID: int := 0x8000_0000 + 1
  const RV_MIMPID: int := 1
  /** `(0UL << 24) | 3`: major version 0 in bits 24-30, minor version 3. */
  const SBI_SPEC_VERSION: int := 0 * 0x100_0000 + 3

  /** `sbi_ret_t`. */
  datatype SbiRet = SbiRet(error: i32, value: i32)

  const NOT_SUPPORTED: SbiRet := SbiRet(SBI_ERR_NOT_SUPPORTED, 0)

  /** A successful call returning `v`, stored in the `int32_t` value field. */
  function Success(v: int): SbiRet
  {
    SbiRet(SBI_SUCCESS, WrapI32(v))
  }

  /** State changes an ecall asks of the emulator. */
  datatype Effect =
    | NoEffect
    | SetTimer(lo: u32, hi: u32)
    | Stop

  /** The extensions the emulator implements. */
  predicate Implemented(eid: int)
  {
    eid == EID_BASE || eid == EID_TIMER || eid == EID_RST
  }

  /**
   `handle_sbi_ecall_BASE`: fixed identification values, and the probe of
   the extension named in a0 (read as `int32_t`). The Base extension's
   function IDs 0 to 6 succeed; every other FID is not supported.
   */
  function BaseCall(fid: i32, a0: u32): (r: SbiRet)
    ensures r.error == SBI_SUCCESS <==> BASE_GET_SBI_SPEC_VERSION <= fid <= BASE_GET_MIMPID
    ensures r.error != SBI_SUCCESS ==> r == NOT_SUPPORTED
    ensures fid == BASE_PROBE_EXTENSION ==> (r.value == 1 <==> Implemented(a0))
    ensures fid == BASE_PROBE_EXTENSION ==> (r.value == 0 <==> !Implemented(a0))
  {
    if fid == BASE_GET_SBI_IMPL_ID then Success(SBI_IMPL_ID)
    else if fid == BASE_GET_SBI_IMPL_VERSION then Success(SBI_IMPL_VERSION)
    else if fid == BASE_GET_MVENDORID then Success(RV_MVENDORID)
    else if fid == BASE_GET_MARCHID then Success(RV_MARCHID)
    else if fid == BASE_GET_MIMPID then Success(RV_MIMPID)
    else if fid == BASE_GET_SBI_SPEC_VERSION then Success(SBI_SPEC_VERSION)
    else if fid == BASE_PROBE_EXTENSION then
      var eid := ToI32(a0);
      var available := eid == EID_BASE || eid == EID_TIMER || eid == EID_RST;
      Success(if available then 1 else 0)
    else NOT_SUPPORTED
  }

  /** The answer of `handle_sbi_ecall_TIMER`. */
  function TimerCall(fid: i32): (r: SbiRet)
    ensures r.error == SBI_SUCCESS <==> fid == TIMER_SET_TIMER
    ensures r.error != SBI_SUCCESS ==> r == NOT_SUPPORTED
    ensures r.value == 0
  {
    if fid == TIMER_SET_TIMER then Success(0) else NOT_SUPPORTED
  }

  /** The answer of `handle_sbi_ecall_RST`. */
  function ResetCall(fid: i32): (r: SbiRet)
    ensures r.error == SBI_SUCCESS <==> fid == RST_SYSTEM_RESET
    ensures r.error != SBI_SUCCESS ==> r == NOT_SUPPORTED
    ensures r.value == 0
  {
    if fid == RST_SYSTEM_RESET then Success(0) else NOT_SUPPORTED
  }

  /**
   `handle_sbi_ecall`'s answer: dispatch on the EID in a7, then on the FID
   in a6 read as `int32_t`. Only the seven Base functions, SET_TIMER and
   SYSTEM_RESET succeed; everything else is "not supported" with value 0.
   */
  function EcallRet(a7: u32, a6: u32, a0: u32): (r: SbiRet)
    ensures !Implemented(a7) ==> r == NOT_SUPPORTED
    ensures r.error == SBI_SUCCESS || r == NOT_SUPPORTED
    ensures r.error == SBI_SUCCESS <==>
              (a7 == EID_BASE && a6 <= 6) || (a7 == EID_TIMER && a6 == 0) || (a7 == EID_RST && a6 == 0)
  {
    var fid := ToI32(a6);
    if a7 == EID_BASE then BaseCall(fid, a0)
    else if a7 == EID_TIMER then TimerCall(fid)
    else if a7 == EID_RST then ResetCall(fid)
    else NOT_SUPPORTED
  }

  /**
   The state change a call makes: SET_TIMER stores a0 and a1 as the low and
   high words of the timer compare value, SYSTEM_RESET stops the emulator,
   and nothing else changes any state besides a0 and a1.
   */
  function EcallEffect(a7: u32, a6: u32, a0: u32, a1: u32): (e: Effect)
    ensures e.SetTimer? <==> a7 == EID_TIMER && a6 == 0
    ensures e.SetTimer? ==> e.lo == a0 && e.hi == a1
    ensures e.Stop? <==> a7 == EID_RST && a6 == 0
    ensures e != NoEffect ==> EcallRet(a7, a6, a0) == SbiRet(SBI_SUCCESS, 0)
  {
    var fid := ToI32(a6);
    if a7 == EID_TIMER && fid == TIMER_SET_TIMER then SetTimer(a0, a1)
    else if a7 == EID_RST && fid == RST_SYSTEM_RESET then Stop
    else NoEffect
  }

  /** The words the ecall handler writes back into a0 and a1. */
  function ReturnRegisters(a7: u32, a6: u32, a0: u32): (u32, u32)
  {
    var r := EcallRet(a7, a6, a0);
    (ToU32(r.error), ToU32(r.value))
  }

  /**
   What a caller reads back in (a0, a1): the Base getters' fixed values,
   with the architecture ID's top bit surviving the trip through the
   `int32_t` field, and 0xFFFFFFFE (-2) for anything not supported.
   */
  lemma BaseGetterRegisters(a6: u32, a0: u32)
    ensures a6 == 0 ==> ReturnRegisters(EID_BASE, a6, a0) == (0, 3)
    ensures a6 == 1 ==> ReturnRegisters(EID_BASE, a6, a0) == (0, 0x999)
    ensures a6 == 2 ==> ReturnRegisters(EID_BASE, a6, a0) == (0, 1)
    ensures a6 == 4 ==> ReturnRegisters(EID_BASE, a6, a0) == (0, 0x1234_5678)
    ensures a6 == 5 ==> ReturnRegisters(EID_BASE, a6, a0) == (0, 0x8000_0001)
    ensures a6 == 6 ==> ReturnRegisters(EID_BASE, a6, a0) == (0, 1)
    ensures a6 > 6 ==> ReturnRegisters(EID_BASE, a6, a0) == (0xFFFF_FFFE, 0)
  {
    if a6 == 5 {
      assert WrapI32(RV_MARCHID) == -0x7FFF_FFFF;
    }
  }

  /** An unknown EID, or an unknown FID of a known one, answers (-2, 0) in (a0, a1) and has no effect. */
  lemma UnsupportedCallRegisters(a7: u32, a6: u32, a0: u32, a1: u32)
    requires !(a7 == EID_BASE && a6 <= 6) && !(a7 == EID_TIMER && a6 == 0) && !(a7 == EID_RST && a6 == 0)
    ensures ReturnRegisters(a7, a6, a0) == (0xFFFF_FFFE, 0)
    ensures EcallEffect(a7, a6, a0, a1) == NoEffect
  {
  }
}
