/**
 Physical address decode shared by the emulator's load and store paths.
 RAM starts at address 0; above it, the top 256 MiB (0xF_______) are split
 into 256 regions of 1 MiB, of which the PLIC uses regions 0x00 and 0x02,
 the UART region 0x40, virtio-net 0x41 and virtio-blk 0x42 (the last two
 only when the board is built with them). Any other address faults.
 */
module Bus {
  import opened Machine

  /** Where an access goes, with the address the device handler is given. */
  datatype Target =
    | Ram(addr: u32)
    | Plic(offset: u32)
    | Uart(offset: u32)
    | VirtioNet(offset: u32)
    | VirtioBlk(offset: u32)
    | Fault

  /** The kind of data access, which decides the fault cause. */
  datatype Access = Load | Store

  /** Start of the UART, virtio-net and virtio-blk windows. */
  const UART_BASE: u32 := 0xF400_0000
  const VNET_BASE: u32 := 0xF410_0000
  const VBLK_BASE: u32 := 0xF420_0000
  const PLIC_BASE: u32 := 0xF000_0000
  const REGION_SIZE: u32 := 0x10_0000

  /** `(addr >> 20) & MASK(8)`: which 1 MiB region of the I/O space. */
  function Region(addr: u32): nat
  {
    (addr / 0x10_0000) % 0x100
  }

  /**
   The routing done by both `mem_load` and `mem_store`. The contract states
   it as address windows: RAM below `ramSize`, then the PLIC window
   0xF0000000-0xF02FFFFF less the unused region 0xF01_____, then one 1 MiB
   window per device; each device sees the address relative to its base.
   */
  function Decode(cfg: Config, addr: u32): (t: Target)
    ensures t.Ram? <==> addr < cfg.ramSize
    ensures t.Ram? ==> t.addr == addr
    ensures t.Plic? <==> cfg.ramSize <= addr
                         && (PLIC_BASE <= addr < PLIC_BASE + REGION_SIZE
                             || PLIC_BASE + 2 * REGION_SIZE <= addr < PLIC_BASE + 3 * REGION_SIZE)
    ensures t.Plic? ==> t.offset == addr - PLIC_BASE
    ensures t.Uart? <==> cfg.ramSize <= addr && UART_BASE <= addr < UART_BASE + REGION_SIZE
    ensures t.Uart? ==> t.offset == addr - UART_BASE
    ensures t.VirtioNet? <==> cfg.hasVirtioNet && cfg.ramSize <= addr && VNET_BASE <= addr < VNET_BASE + REGION_SIZE
    ensures t.VirtioNet? ==> t.offset == addr - VNET_BASE
    ensures t.VirtioBlk? <==> cfg.hasVirtioBlk && cfg.ramSize <= addr && VBLK_BASE <= addr < VBLK_BASE + REGION_SIZE
    ensures t.VirtioBlk? ==> t.offset == addr - VBLK_BASE
  {
    if addr < cfg.ramSize then Ram(addr)
    else if addr / 0x1000_0000 == 0xF then
      var region := Region(addr);
      if region == 0x0 || region == 0x2 then Plic(addr % 0x400_0000)
      else if region == 0x40 then Uart(addr % 0x10_0000)
      else if region == 0x41 && cfg.hasVirtioNet then VirtioNet(addr % 0x10_0000)
      else if region == 0x42 && cfg.hasVirtioBlk then VirtioBlk(addr % 0x10_0000)
      else Fault
    else Fault
  }

  /** The exception a faulting access raises: a load fault or a store fault. */
  function FaultCause(kind: Access): u32
  {
    match kind
    case Load => EXC_LOAD_FAULT
    case Store => EXC_STORE_FAULT
  }

  /**
   Above RAM, every address outside the windows of the devices the board is
   built with faults, loads and stores alike; the virtio windows fault on a
   board without those devices.
   */
  lemma DecodeFaultsOutsideWindows(cfg: Config, addr: u32)
    requires cfg.ramSize <= addr
    requires !(PLIC_BASE <= addr < PLIC_BASE + REGION_SIZE)
    requires !(PLIC_BASE + 2 * REGION_SIZE <= addr < PLIC_BASE + 3 * REGION_SIZE)
    requires !(UART_BASE <= addr < UART_BASE + REGION_SIZE)
    requires cfg.hasVirtioNet ==> !(VNET_BASE <= addr < VNET_BASE + REGION_SIZE)
    requires cfg.hasVirtioBlk ==> !(VBLK_BASE <= addr < VBLK_BASE + REGION_SIZE)
    ensures Decode(cfg, addr) == Fault
  {
  }
}
