/** Types shared by several parts. */
module Common {

  datatype Option<+T> = None | Some(value: T)

  /** What a transmission is modulated with. */
  datatype TxMode = Usb | Lsb | Am

  /** Carrier offset of AM and of translated raw I/Q. */
  const AM_IF_HZ: nat := 11_025
}
