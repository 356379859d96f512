/**
 * The editable Word version of the catalog (`generar_version_editable_docx` in
 * streamlit_app.py): the sequence of blocks added to the python-docx document.
 * A three-block header (title heading, generation date, blank paragraph) is
 * followed, for every row, by the product's blocks and one blank paragraph; the
 * blank paragraphs therefore cut the document into the header and one entry
 * per product.
 */
module Docx {
  import opened Wrappers
  import opened Seqs
  import opened Rows
  import opened Resolver

  /** What `doc.add_heading`, `doc.add_paragraph` and `doc.add_picture` add. */
  datatype Block = Heading(text: string, level: nat) | Para(text: string) | Picture(data: Bytes)

  /** The text rows of one entry. */
  datatype Entry = Entry(name: string, category: string, description: string, price: string, stock: string)

  const DOC_TITLE := "Catálogo de Productos"
  const GENERATED_PREFIX := "Generado: "
  const CATEGORY_PREFIX := "Categoría: "
  const PRICE_PREFIX := "Precio: $"
  const STOCK_PREFIX := "Stock: "
  /** `doc.add_paragraph("")`, which closes the header and every entry. */
  const BLANK := Para("")

  function EntryOf(row: Row): Entry {
    Entry(Field(row, "nombre"), Field(row, "categoria"), Field(row, "descripcion"), Field(row, "precio"), Field(row, "stock"))
  }

  /** The title heading and the generation date; `generated` is the formatted clock reading. */
  function HeaderBlocks(generated: string): seq<Block> {
    [Heading(DOC_TITLE, 1), Para(GENERATED_PREFIX + generated)]
  }

  /** An entry's text: name heading, category, the description only when it is not empty, price and stock. */
  function TextBlocks(e: Entry): seq<Block> {
    [Heading(e.name, 2), Para(CATEGORY_PREFIX + e.category)]
    + (if e.description != "" then [Para(e.description)] else [])
    + [Para(PRICE_PREFIX + e.price), Para(STOCK_PREFIX + e.stock)]
  }

  /**
   * The picture, when the image downloads and python-docx takes it (`inserts`
   * stands for the `add_picture` call that the source wraps in `try/except: pass`).
   */
  function PictureBlocks(image: Option<Bytes>, inserts: Bytes -> bool): seq<Block> {
    if image.Some? && inserts(image.value) then [Picture(image.value)] else []
  }

  /**
   * One product's blocks: its text, then its picture when there is one. An entry
   * has four blocks, plus one for a non-empty description and one for an
   * inserted picture; it opens with the name heading (level 2) and the category,
   * and the picture, when present, is last and holds the downloaded bytes.
   */
  function EntryBlocks(row: Row, fetch: string -> Response, inserts: Bytes -> bool): (bs: seq<Block>)
    ensures var e := EntryOf(row);
      var image := Download(Field(row, "imagen"), fetch);
      var extra := (if e.description != "" then 1 else 0) + (if image.Some? && inserts(image.value) then 1 else 0);
      && |bs| == 4 + extra
      && bs[0] == Heading(e.name, 2)
      && bs[1] == Para(CATEGORY_PREFIX + e.category)
      && (e.description != "" ==> bs[2] == Para(e.description))
      && (image.Some? && inserts(image.value) <==> bs[|bs| - 1].Picture?)
      && (bs[|bs| - 1].Picture? ==> bs[|bs| - 1] == Picture(image.value))
  {
    TextBlocks(EntryOf(row)) + PictureBlocks(Download(Field(row, "imagen"), fetch), inserts)
  }

  function EntryList(rows: seq<Row>, fetch: string -> Response, inserts: Bytes -> bool): seq<seq<Block>> {
    seq(|rows|, k requires 0 <= k < |rows| => EntryBlocks(rows[k], fetch, inserts))
  }

  /** The whole document: the header and every entry, each closed by a blank paragraph. */
  function Document(rows: seq<Row>, generated: string, fetch: string -> Response, inserts: Bytes -> bool): seq<Block> {
    Terminated([HeaderBlocks(generated)] + EntryList(rows, fetch, inserts), BLANK)
  }

  /** Reads an entry's text back; the inverse of EntryBlocks on its text rows. */
  function ReadEntry(bs: seq<Block>): Option<Entry> {
    if |bs| >= 4 && bs[0].Heading? && bs[1].Para? && CATEGORY_PREFIX <= bs[1].text then
      var name, category := bs[0].text, bs[1].text[|CATEGORY_PREFIX|..];
      if |bs| >= 5 && bs[2].Para? && bs[3].Para? && bs[4].Para?
         && PRICE_PREFIX <= bs[3].text && STOCK_PREFIX <= bs[4].text
      then Some(Entry(name, category, bs[2].text, bs[3].text[|PRICE_PREFIX|..], bs[4].text[|STOCK_PREFIX|..]))
      else if bs[2].Para? && bs[3].Para? && PRICE_PREFIX <= bs[2].text && STOCK_PREFIX <= bs[3].text
      then Some(Entry(name, category, "", bs[2].text[|PRICE_PREFIX|..], bs[3].text[|STOCK_PREFIX|..]))
      else None
    else None
  }

  /** Appends the text of one entry, block by block. */
  method AppendText(doc: seq<Block>, e: Entry) returns (doc': seq<Block>)
    ensures doc' == doc + TextBlocks(e)
  {
    doc' := doc + [Heading(e.name, 2)];
    doc' := doc' + [Para(CATEGORY_PREFIX + e.category)];
    if e.description != "" {
      doc' := doc' + [Para(e.description)];
    }
    doc' := doc' + [Para(PRICE_PREFIX + e.price)];
    doc' := doc' + [Para(STOCK_PREFIX + e.stock)];
  }

  /** Appends one row's blocks (its text, then its picture when it downloads and is inserted) and the blank paragraph after them. */
  method AppendEntry(doc: seq<Block>, row: Row, fetch: string -> Response, inserts: Bytes -> bool)
    returns (doc': seq<Block>)
    ensures doc' == doc + EntryBlocks(row, fetch, inserts) + [BLANK]
  {
    var e := Entry(Field(row, "nombre"), Field(row, "categoria"), Field(row, "descripcion"),
                   Field(row, "precio"), Field(row, "stock"));
    doc' := AppendText(doc, e);
    var image := Download(Field(row, "imagen"), fetch);
    if image.Some? && inserts(image.value) {
      doc' := doc' + [Picture(image.value)];
    }
    doc' := doc' + [BLANK];
  }

  /**
   * `generar_version_editable_docx`: nothing when python-docx is missing
   * (`docxAvailable` is `DOCX_OK`), otherwise the header and one entry per row.
   */
  method BuildDocx(docxAvailable: bool, rows: seq<Row>, generated: string, fetch: string -> Response, inserts: Bytes -> bool)
    returns (doc: Option<seq<Block>>)
    ensures doc.None? <==> !docxAvailable
    ensures docxAvailable ==> doc == Some(Document(rows, generated, fetch, inserts))
  {
    if !docxAvailable {
      return None;
    }
    var blocks := [];
    blocks := blocks + [Heading(DOC_TITLE, 1)];
    blocks := blocks + [Para(GENERATED_PREFIX + generated)];
    blocks := blocks + [BLANK];
    ghost var head := blocks;
    assert head == HeaderBlocks(generated) + [BLANK];
    ghost var entries := EntryList(rows, fetch, inserts);
    var i := 0;
    while i < |rows|
      invariant 0 <= i <= |rows|
      invariant blocks == head + Terminated(entries[..i], BLANK)
    {
      ghost var done := Terminated(entries[..i], BLANK);
      ghost var entry := entries[i];
      assert entry == EntryBlocks(rows[i], fetch, inserts);
      blocks := AppendEntry(blocks, rows[i], fetch, inserts);
      TerminatedSnoc(entries, i, BLANK);
      AppendAssoc(head, done, entry, [BLANK]);
      i := i + 1;
    }
    assert entries[..i] == entries;
    TerminatedCons(HeaderBlocks(generated), entries, BLANK);
    doc := Some(blocks);
  }

  // ---------------------------------------------------------------------------
  // Properties of the document

  /** The text of an entry reads back as the row's name, category, description, price and stock. */
  lemma EntryRoundTrip(row: Row, fetch: string -> Response, inserts: Bytes -> bool)
    ensures ReadEntry(EntryBlocks(row, fetch, inserts)) == Some(EntryOf(row))
  {
    var e := EntryOf(row);
    assert (CATEGORY_PREFIX + e.category)[|CATEGORY_PREFIX|..] == e.category;
    assert (PRICE_PREFIX + e.price)[|PRICE_PREFIX|..] == e.price;
    assert (STOCK_PREFIX + e.stock)[|STOCK_PREFIX|..] == e.stock;
  }

  /** No header block or entry block is a blank paragraph. */
  lemma NoBlankInPieces(rows: seq<Row>, generated: string, fetch: string -> Response, inserts: Bytes -> bool)
    ensures var pieces := [HeaderBlocks(generated)] + EntryList(rows, fetch, inserts);
      forall k :: 0 <= k < |pieces| ==> BLANK !in pieces[k]
  {
    var pieces := [HeaderBlocks(generated)] + EntryList(rows, fetch, inserts);
    forall k | 0 <= k < |pieces|
      ensures BLANK !in pieces[k]
    {
      if k == 0 {
        assert |GENERATED_PREFIX + generated| > 0;
      } else {
        var e := EntryOf(rows[k - 1]);
        assert |CATEGORY_PREFIX + e.category| > 0;
        assert |PRICE_PREFIX + e.price| > 0;
        assert |STOCK_PREFIX + e.stock| > 0;
      }
    }
  }

  /**
   * The blank paragraphs cut the document into the header and the entries of the
   * rows, in order, the last one followed by a blank paragraph as well; the first three
   * blocks are the title, the generation date and a blank paragraph.
   */
  lemma {:induction false} DocumentPieces(rows: seq<Row>, generated: string, fetch: string -> Response, inserts: Bytes -> bool)
    ensures var doc := Document(rows, generated, fetch, inserts);
      && doc[..3] == [Heading(DOC_TITLE, 1), Para(GENERATED_PREFIX + generated), BLANK]
      && Split(doc, [BLANK]) == [HeaderBlocks(generated)] + EntryList(rows, fetch, inserts) + [[]]
      && |Split(doc, [BLANK])| == |rows| + 2
  {
    var entries := EntryList(rows, fetch, inserts);
    NoBlankInPieces(rows, generated, fetch, inserts);
    SplitTerminated([HeaderBlocks(generated)] + entries, BLANK);
    TerminatedCons(HeaderBlocks(generated), entries, BLANK);
  }

  /** One blank paragraph for the header and one per row. */
  lemma {:induction false} BlankCount(rows: seq<Row>, generated: string, fetch: string -> Response, inserts: Bytes -> bool)
    ensures multiset(Document(rows, generated, fetch, inserts))[BLANK] == |rows| + 1
  {
    NoBlankInPieces(rows, generated, fetch, inserts);
    TerminatedCount([HeaderBlocks(generated)] + EntryList(rows, fetch, inserts), BLANK);
  }
}
