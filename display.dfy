/** What the SwiftUI status rows render, reduced to their data: an SF Symbol
    name with its tint and a caption, or a caption alone. */
module Display {
  datatype Color = Green | Red | Yellow | Black

  datatype StatusLine =
    | Badge(icon: string, color: Color, text: string)
    | Plain(text: string)
}
