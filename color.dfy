/** The colour value every part of the checker works on: an sRGB triple of 8-bit channels. */
module Color {

  /** An 8-bit channel intensity. */
  type Channel = c: int | 0 <= c <= 255

  datatype Rgb = Rgb(r: Channel, g: Channel, b: Channel)

  const Black: Rgb := Rgb(0, 0, 0)
  const White: Rgb := Rgb(255, 255, 255)
}
