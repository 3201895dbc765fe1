/** Fixed capacities (src/limits.rs) and the sizes of physical pages. */
module Limits {
  const MAX_CNODES: nat := 7
  const MAX_TCBS: nat := 8
  const MAX_ENDPOINTS: nat := 8
  const MAX_NOTIFICATIONS: nat := 8
  const MAX_UNTYPEDS: nat := 4
  const MAX_SCHED_CONTEXTS: nat := 8
  const MAX_VSPACES: nat := 6
  const MAX_FRAMES: nat := 28
  const MAX_KERNEL_PAGE_TABLES: nat := 32
  const CNODE_SLOTS: nat := 72
  const MAX_FRAME_MAPPINGS: nat := 2

  /** The Sv39 leaf sizes: a page is 4 KiB and a megapage 2 MiB. */
  const PAGE_SIZE: nat := 4096
  const MEGAPAGE_SIZE: nat := 2097152
}
