/** The widths of the machine integers that the models wrap around at. */
module MachineInts {
  const TWO_31: int := 0x8000_0000
  const TWO_32: int := 0x1_0000_0000
  const TWO_64: int := 0x1_0000_0000_0000_0000
}
