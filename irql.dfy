/**
 * The interrupt request level of the processor a handler runs on. The
 * kernel routines that raise or lower it are modelled by the lock methods
 * that call them; every other routine only reads it in a debug assertion.
 */
module Irql {
  import opened Types

  const PASSIVE_LEVEL: u8 := 0
  const APC_LEVEL: u8 := 1
  const DISPATCH_LEVEL: u8 := 2

  class Processor {
    /** What KeGetCurrentIrql returns. */
    var irql: u8

    constructor (irql: u8)
      ensures this.irql == irql
    {
      this.irql := irql;
    }
  }
}
