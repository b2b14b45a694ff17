/** The device register addresses the driver uses. */
module RegisterMap {
  import opened Bits

  const OFFSET_X_REG_L: Byte := 0x45
  const OFFSET_X_REG_H: Byte := 0x46
  const OFFSET_Y_REG_L: Byte := 0x47
  const OFFSET_Y_REG_H: Byte := 0x48
  const OFFSET_Z_REG_L: Byte := 0x49
  const OFFSET_Z_REG_H: Byte := 0x4A

  const WHO_AM_I: Byte := 0x4F

  const CFG_REG_A: Byte := 0x60
  const CFG_REG_B: Byte := 0x61
  const CFG_REG_C: Byte := 0x62

  const INT_CTRL_REG: Byte := 0x63
  const INT_SOURCE_REG: Byte := 0x64
  const INT_THS_L_REG: Byte := 0x65
  const INT_THS_H_REG: Byte := 0x66

  const STATUS_REG: Byte := 0x67

  const OUTX_L_REG: Byte := 0x68
  const OUTX_H_REG: Byte := 0x69
  const OUTY_L_REG: Byte := 0x6A
  const OUTY_H_REG: Byte := 0x6B
  const OUTZ_L_REG: Byte := 0x6C
  const OUTZ_H_REG: Byte := 0x6D

  const TEMP_OUT_L_REG: Byte := 0x6E
  const TEMP_OUT_H_REG: Byte := 0x6F
}
