/**
 * The reportlab vocabulary shared by the two PDF builders of streamlit_app.py,
 * the catalog (`generar_catalogo_pdf`) and the visual guide
 * (`generar_mockup_visual`): paragraph styles, product cards, colours and the
 * flowables a story holds.
 */
module Flowables {
  import opened Rows

  /** The named paragraph styles (their fonts, sizes and colours are not modelled). */
  datatype Style = PortTitle | PortSub | CategoriaTitle | ProductoTitle | ProductoText | Title | Normal

  /** An element of a product card: a picture or a styled paragraph. */
  datatype CardItem = Picture(data: Bytes) | Text(text: string, style: Style)

  /** `Table([[e] for e in elementos])`: one product's card, one element per table row. */
  datatype Card = Card(elements: seq<CardItem>)

  /** `colors.Color(red, green, blue)`, each channel between 0 and 1. */
  datatype Color = Color(red: real, green: real, blue: real)

  /** The reportlab flowables the story holds; dimensions in cm are not modelled. */
  datatype Flowable =
    | Spacer
    | Image(data: Bytes)
    | Paragraph(text: string, style: Style)
      /** `Table(celdas)`: the rows of cards of one category. */
    | Grid(rows: seq<seq<Card>>)
      /** A zone of the visual guide: `Table([[Paragraph(caption, style)]])` on a coloured background. */
    | Zone(caption: string, style: Style, background: Color)
    | PageBreak
}
