/** The fixed-width integer types of the program. */
module MachineInts {

  newtype uint8 = x: int | 0 <= x < 0x100
  newtype int8 = x: int | -0x80 <= x < 0x80
  newtype int16 = x: int | -0x8000 <= x < 0x8000
  newtype uint32 = x: int | 0 <= x < 0x1_0000_0000
}
