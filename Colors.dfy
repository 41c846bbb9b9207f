/** WPF colours as ARGB byte quadruples, with the named constants the window and the settings use. */
module Colors {

  type Byte = x: int | 0 <= x < 256

  datatype Color = Argb(a: Byte, r: Byte, g: Byte, b: Byte)

  // The values of System.Windows.Media.Colors that the program names.
  const Black: Color := Argb(255, 0, 0, 0)
  const White: Color := Argb(255, 255, 255, 255)
  const Green: Color := Argb(255, 0, 128, 0)
  const Blue: Color := Argb(255, 0, 0, 255)
  const LightGray: Color := Argb(255, 211, 211, 211)
  const DodgerBlue: Color := Argb(255, 30, 144, 255)
  const Yellow: Color := Argb(255, 255, 255, 0)
  const Magenta: Color := Argb(255, 255, 0, 255)

}
