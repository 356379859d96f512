/**
 * The PDF catalog of streamlit_app.py (`generar_catalogo_pdf`): the story of
 * reportlab flowables it hands to `doc.build`. The story is an optional cover
 * page followed by one page per category group; every page ends in a PageBreak.
 * A group's page is its heading, a spacer and, when the group has products, a
 * table whose rows hold two product cards each, packed by an accumulate-and-flush
 * loop.
 */
module Catalog {
  import opened Wrappers
  import opened Seqs
  import opened Rows
  import opened Resolver
  import opened Flowables

  /**
   * What lies outside the program: the HTTP GET, and whether reportlab accepts
   * some bytes as a picture (the `RLImage` calls wrapped in `try/except: pass`).
   */
  datatype World = World(fetch: string -> Response, embeds: Bytes -> bool)

  /** `portada_info` after its `.get(..., "")` / `.get(..., None)` defaults. */
  datatype Cover = Cover(title: string, subtitle: string, logo: Option<Bytes>)

  /** One `(categoria, grupo)` pair of the grouping. */
  datatype Group = Group(key: string, rows: seq<Row>)

  /** The data frame: its column names and its rows in order. */
  datatype Frame = Frame(columns: set<string>, rows: seq<Row>)

  /** The text a card shows for one product. */
  datatype Product = Product(name: string, description: string, price: string, stock: string)

  const PLACEHOLDER := "🖼️ Imagen no disponible"
  const PRODUCTS_PER_ROW := 2
  const ALL_ITEMS := "Todos"

  function ProductOf(row: Row): Product {
    Product(Field(row, "nombre"), Field(row, "descripcion"), Field(row, "precio"), Field(row, "stock"))
  }

  // ---------------------------------------------------------------------------
  // Cards

  /**
   * One product's card: its image, or the placeholder text when the image does
   * not resolve; its name in bold; description; price; stock; and the mini-logo
   * when one is supplied and reportlab takes it. So a card has five elements, or
   * six with the accepted mini-logo last, and a failed image never drops it.
   */
  function CardFor(row: Row, world: World, miniLogo: Option<Bytes>): (card: Card)
    ensures var els := card.elements;
      var image := Download(Field(row, "imagen"), world.fetch);
      && 5 <= |els| <= 6
      && (|els| == 6 <==> miniLogo.Some? && world.embeds(miniLogo.value))
      && (|els| == 6 ==> els[5] == Picture(miniLogo.value))
      && (image.None? <==> els[0] == Text(PLACEHOLDER, ProductoText))
      && (image.Some? ==> els[0] == Picture(image.value))
  {
    var picture :=
      match Download(Field(row, "imagen"), world.fetch)
      case Some(b) => Picture(b)
      case None => Text(PLACEHOLDER, ProductoText);
    var p := ProductOf(row);
    Card([ picture,
           Text("<b>" + p.name + "</b>", ProductoTitle),
           Text(p.description, ProductoText),
           Text("Precio: $" + p.price, ProductoText),
           Text("Stock: " + p.stock, ProductoText) ]
         + (if miniLogo.Some? && world.embeds(miniLogo.value) then [Picture(miniLogo.value)] else []))
  }

  /** Reads the product back from a card: the inverse of CardFor on its text lines. */
  function ReadCard(f: Card): Option<Product> {
    if |f.elements| >= 5
       && f.elements[1].Text? && f.elements[2].Text?
       && f.elements[3].Text? && f.elements[4].Text?
    then
      var title, price, stock := f.elements[1].text, f.elements[3].text, f.elements[4].text;
      if |title| >= 7 && title[..3] == "<b>" && title[|title| - 4..] == "</b>"
         && "Precio: $" <= price && "Stock: " <= stock
      then Some(Product(title[3..|title| - 4], f.elements[2].text, price[9..], stock[7..]))
      else None
    else None
  }

  /** A card shows exactly the product's name, description, price and stock, whatever happened to its image. */
  lemma CardRoundTrip(row: Row, world: World, miniLogo: Option<Bytes>)
    ensures ReadCard(CardFor(row, world, miniLogo)) == Some(ProductOf(row))
  {
    var p := ProductOf(row);
    var title := "<b>" + p.name + "</b>";
    assert title[..3] == "<b>";
    assert title[|title| - 4..] == "</b>";
    assert title[3..|title| - 4] == p.name;
    assert ("Precio: $" + p.price)[9..] == p.price;
    assert ("Stock: " + p.stock)[7..] == p.stock;
  }

  /** One card per product, in input order. */
  function Cards(rows: seq<Row>, world: World, miniLogo: Option<Bytes>): (cards: seq<Card>)
    ensures |cards| == |rows|
  {
    if rows == [] then []
    else Cards(rows[..|rows| - 1], world, miniLogo) + [CardFor(rows[|rows| - 1], world, miniLogo)]
  }

  /** The k-th card is the k-th product's: a product whose image fails still gets its card, in its place. */
  lemma {:induction false} CardsAt(rows: seq<Row>, k: nat, world: World, miniLogo: Option<Bytes>)
    requires k < |rows|
    ensures Cards(rows, world, miniLogo)[k] == CardFor(rows[k], world, miniLogo)
  {
    if k < |rows| - 1 {
      CardsAt(rows[..|rows| - 1], k, world, miniLogo);
    }
  }

  /** The rows of the group's table: its cards taken two at a time. */
  function GroupRows(rows: seq<Row>, world: World, miniLogo: Option<Bytes>): seq<seq<Card>> {
    Chunks(Cards(rows, world, miniLogo), PRODUCTS_PER_ROW)
  }

  /**
   * Row packing: every table row holds one or two cards, every row but the last
   * holds two, the rows read in order are the products' cards in input order
   * (each product appears once, as its card), there are ceil(n / 2) rows, and no
   * rows at all for an empty group.
   */
  lemma GroupRowsShape(rows: seq<Row>, world: World, miniLogo: Option<Bytes>)
    ensures var table := GroupRows(rows, world, miniLogo);
      && |table| == (|rows| + 1) / 2
      && (table == [] <==> rows == [])
      && (forall k :: 0 <= k < |table| ==> 1 <= |table[k]| <= 2)
      && (forall k :: 0 <= k < |table| - 1 ==> |table[k]| == 2)
      && |Flatten(table)| == |rows|
      && (forall k :: 0 <= k < |rows| ==> Flatten(table)[k] == CardFor(rows[k], world, miniLogo))
      && (forall k :: 0 <= k < |rows| ==> ReadCard(Flatten(table)[k]) == Some(ProductOf(rows[k])))
  {
    ChunksCount(Cards(rows, world, miniLogo), PRODUCTS_PER_ROW);
    forall k | 0 <= k < |rows|
      ensures Cards(rows, world, miniLogo)[k] == CardFor(rows[k], world, miniLogo)
      ensures ReadCard(CardFor(rows[k], world, miniLogo)) == Some(ProductOf(rows[k]))
    {
      CardsAt(rows, k, world, miniLogo);
      CardRoundTrip(rows[k], world, miniLogo);
    }
  }

  /**
   * The inner loop of the grouping loop: builds each product's card and appends it
   * to `fila`, moving `fila` into `celdas` when it is full and once more after
   * the loop when it is not empty.
   */
  method BuildGroupRows(rows: seq<Row>, world: World, miniLogo: Option<Bytes>) returns (celdas: seq<seq<Card>>)
    ensures celdas == GroupRows(rows, world, miniLogo)
  {
    ghost var cards := Cards(rows, world, miniLogo);
    var fila: seq<Card> := [];
    celdas := [];
    var i := 0;
    while i < |rows|
      invariant i <= |rows|
      invariant Packed(cards, i, celdas, fila, PRODUCTS_PER_ROW)
    {
      var ficha := CardFor(rows[i], world, miniLogo);
      CardsAt(rows, i, world, miniLogo);
      PackedStep(cards, i, celdas, fila, PRODUCTS_PER_ROW);
      fila := fila + [ficha];
      if |fila| == PRODUCTS_PER_ROW {
        celdas := celdas + [fila];
        fila := [];
      }
      i := i + 1;
    }
    PackedDone(cards, celdas, fila, PRODUCTS_PER_ROW);
    if fila != [] {
      celdas := celdas + [fila];
    }
  }

  // ---------------------------------------------------------------------------
  // Pages and the story

  /**
   * The cover page: a spacer, then the logo, title and subtitle, each only when
   * present and each followed by a spacer. It holds no PageBreak of its own.
   */
  function CoverPage(c: Cover, world: World): (page: seq<Flowable>)
    ensures var logo := if c.logo.Some? && world.embeds(c.logo.value) then 2 else 0;
      var title := if c.title != "" then 2 else 0;
      var subtitle := if c.subtitle != "" then 2 else 0;
      && |page| == 1 + logo + title + subtitle
      && page[0] == Spacer
      && (logo == 2 ==> page[1] == Image(c.logo.value) && page[2] == Spacer)
      && (title == 2 ==>
            page[1 + logo] == Paragraph("<b>" + c.title + "</b>", PortTitle) && page[2 + logo] == Spacer)
      && (subtitle == 2 ==>
            page[1 + logo + title] == Paragraph(c.subtitle, PortSub) && page[2 + logo + title] == Spacer)
    ensures PageBreak !in page
  {
    [Spacer]
    + (if c.logo.Some? && world.embeds(c.logo.value) then [Image(c.logo.value), Spacer] else [])
    + (if c.title != "" then [Paragraph("<b>" + c.title + "</b>", PortTitle), Spacer] else [])
    + (if c.subtitle != "" then [Paragraph(c.subtitle, PortSub), Spacer] else [])
  }

  /** A group's page: its heading, a spacer, and its table when it has rows. */
  function SectionPage(g: Group, world: World, miniLogo: Option<Bytes>): seq<Flowable> {
    SectionLayout(g.key, GroupRows(g.rows, world, miniLogo))
  }

  /**
   * A section opens with its heading and a spacer, holds a table exactly when
   * there are rows of cards, and holds no PageBreak of its own.
   */
  function SectionLayout(key: string, celdas: seq<seq<Card>>): (page: seq<Flowable>)
    ensures |page| >= 2 && page[..2] == [Paragraph(key, CategoriaTitle), Spacer]
    ensures PageBreak !in page
    ensures |page| == if celdas == [] then 2 else 3
    ensures celdas != [] ==> page[2] == Grid(celdas)
  {
    [Paragraph(key, CategoriaTitle), Spacer] + (if celdas != [] then [Grid(celdas)] else [])
  }

  function SectionPages(gs: seq<Group>, world: World, miniLogo: Option<Bytes>): seq<seq<Flowable>> {
    seq(|gs|, k requires 0 <= k < |gs| => SectionPage(gs[k], world, miniLogo))
  }

  /** The groups: those of the `categoria` column, or one group "Todos" with every row when there is no such column. */
  function Grouping(df: Frame, byCategory: seq<Group>): seq<Group> {
    if "categoria" in df.columns then byCategory else [Group(ALL_ITEMS, df.rows)]
  }

  function Pages(df: Frame, byCategory: seq<Group>, world: World, miniLogo: Option<Bytes>, cover: Option<Cover>): seq<seq<Flowable>> {
    (if cover.Some? then [CoverPage(cover.value, world)] else [])
    + SectionPages(Grouping(df, byCategory), world, miniLogo)
  }

  /** The story: every page followed by a PageBreak, the last one included. */
  function Story(df: Frame, byCategory: seq<Group>, world: World, miniLogo: Option<Bytes>, cover: Option<Cover>): seq<Flowable> {
    Terminated(Pages(df, byCategory, world, miniLogo, cover), PageBreak)
  }

  /** The story is the cover and its page break, when there is a cover, followed by the terminated sections. */
  lemma StoryAfterCover(df: Frame, byCategory: seq<Group>, world: World, miniLogo: Option<Bytes>, cover: Option<Cover>)
    ensures Story(df, byCategory, world, miniLogo, cover)
      == (if cover.Some? then CoverPage(cover.value, world) + [PageBreak] else [])
         + Terminated(SectionPages(Grouping(df, byCategory), world, miniLogo), PageBreak)
  {
    var sections := SectionPages(Grouping(df, byCategory), world, miniLogo);
    if cover.Some? {
      var pages := [CoverPage(cover.value, world)] + sections;
      assert pages[1..] == sections;
    } else {
      assert Pages(df, byCategory, world, miniLogo, cover) == sections;
    }
  }

  /** Appends the cover's flowables and the page break that closes the cover. */
  method AppendCover(story: seq<Flowable>, c: Cover, world: World) returns (story': seq<Flowable>)
    ensures story' == story + CoverPage(c, world) + [PageBreak]
  {
    story' := story + [Spacer];
    if c.logo.Some? && world.embeds(c.logo.value) {
      story' := story' + [Image(c.logo.value)];
      story' := story' + [Spacer];
    }
    if c.title != "" {
      story' := story' + [Paragraph("<b>" + c.title + "</b>", PortTitle)];
      story' := story' + [Spacer];
    }
    if c.subtitle != "" {
      story' := story' + [Paragraph(c.subtitle, PortSub)];
      story' := story' + [Spacer];
    }
    story' := story' + [PageBreak];
  }

  /** Appends one group's heading, spacer and table (when it has rows), then the page break that closes it. */
  method AppendSection(story: seq<Flowable>, group: Group, world: World, miniLogo: Option<Bytes>)
    returns (story': seq<Flowable>)
    ensures story' == story + SectionPage(group, world, miniLogo) + [PageBreak]
  {
    story' := story + [Paragraph(group.key, CategoriaTitle)];
    story' := story' + [Spacer];
    var celdas := BuildGroupRows(group.rows, world, miniLogo);
    if celdas != [] {
      story' := story' + [Grid(celdas)];
    }
    story' := story' + [PageBreak];
    assert story' == story + SectionLayout(group.key, celdas) + [PageBreak];
  }

  /** `generar_catalogo_pdf` up to `doc.build(story)`: appends the cover, then each group's section. */
  method BuildStory(df: Frame, byCategory: seq<Group>, world: World, miniLogo: Option<Bytes>, cover: Option<Cover>)
    returns (story: seq<Flowable>)
    ensures story == Story(df, byCategory, world, miniLogo, cover)
  {
    story := [];
    if cover.Some? {
      story := AppendCover(story, cover.value, world);
    }
    story := AppendSections(story, Grouping(df, byCategory), world, miniLogo);
    StoryAfterCover(df, byCategory, world, miniLogo, cover);
  }

  /** The `for categoria, grupo in grouped` loop: one section per group, in order. */
  method AppendSections(story: seq<Flowable>, grouped: seq<Group>, world: World, miniLogo: Option<Bytes>)
    returns (story': seq<Flowable>)
    ensures story' == story + Terminated(SectionPages(grouped, world, miniLogo), PageBreak)
  {
    ghost var sections := SectionPages(grouped, world, miniLogo);
    story' := story;
    var g := 0;
    while g < |grouped|
      invariant 0 <= g <= |grouped|
      invariant story' == story + Terminated(sections[..g], PageBreak)
    {
      ghost var done := Terminated(sections[..g], PageBreak);
      ghost var page := sections[g];
      assert page == SectionPage(grouped[g], world, miniLogo);
      story' := AppendSection(story', grouped[g], world, miniLogo);
      assert story' == story + done + page + [PageBreak];
      TerminatedSnoc(sections, g, PageBreak);
      AppendAssoc(story, done, page, [PageBreak]);
      g := g + 1;
    }
    assert sections[..g] == sections;
  }

  // ---------------------------------------------------------------------------
  // Properties of the story

  lemma NoBreakInPages(df: Frame, byCategory: seq<Group>, world: World, miniLogo: Option<Bytes>, cover: Option<Cover>)
    ensures forall k :: 0 <= k < |Pages(df, byCategory, world, miniLogo, cover)| ==>
      PageBreak !in Pages(df, byCategory, world, miniLogo, cover)[k]
  {
    var sections := SectionPages(Grouping(df, byCategory), world, miniLogo);
    NoBreakInSections(Grouping(df, byCategory), world, miniLogo);
    if cover.Some? {
      var pages := [CoverPage(cover.value, world)] + sections;
      assert forall k :: 1 <= k < |pages| ==> pages[k] == sections[k - 1];
    }
  }

  lemma NoBreakInSections(gs: seq<Group>, world: World, miniLogo: Option<Bytes>)
    ensures forall k :: 0 <= k < |SectionPages(gs, world, miniLogo)| ==> PageBreak !in SectionPages(gs, world, miniLogo)[k]
  {
    forall k | 0 <= k < |gs|
      ensures PageBreak !in SectionPages(gs, world, miniLogo)[k]
    {
    }
  }

  /**
   * The story's page breaks cut it into exactly its pages, in order: the cover
   * page first when a cover is given, then one page per group, each starting with
   * the group's heading and a spacer; the last page is followed by a break too, so
   * an empty piece comes after it.
   */
  lemma {:induction false} StoryPages(df: Frame, byCategory: seq<Group>, world: World, miniLogo: Option<Bytes>, cover: Option<Cover>)
    ensures var pieces := Split(Story(df, byCategory, world, miniLogo, cover), [PageBreak]);
      var gs := Grouping(df, byCategory);
      var offset := if cover.Some? then 1 else 0;
      && |pieces| == offset + |gs| + 1
      && (cover.Some? ==> pieces[0] == CoverPage(cover.value, world))
      && (forall k :: 0 <= k < |gs| ==>
            && pieces[offset + k] == SectionPage(gs[k], world, miniLogo)
            && pieces[offset + k][..2] == [Paragraph(gs[k].key, CategoriaTitle), Spacer])
      && pieces[offset + |gs|] == []
  {
    var prefix := if cover.Some? then [CoverPage(cover.value, world)] else [];
    var gs := Grouping(df, byCategory);
    var pieces := Split(Story(df, byCategory, world, miniLogo, cover), [PageBreak]);
    StorySplit(df, byCategory, world, miniLogo, cover);
    assert Pages(df, byCategory, world, miniLogo, cover) == prefix + SectionPages(gs, world, miniLogo);
    PiecesLayout(prefix, gs, world, miniLogo, pieces);
    assert |prefix| == if cover.Some? then 1 else 0;
  }

  /** Pieces made of some leading pages, the groups' pages and an empty piece, indexed. */
  lemma PiecesLayout(prefix: seq<seq<Flowable>>, gs: seq<Group>, world: World, miniLogo: Option<Bytes>,
                     pieces: seq<seq<Flowable>>)
    requires pieces == prefix + SectionPages(gs, world, miniLogo) + [[]]
    ensures |pieces| == |prefix| + |gs| + 1
    ensures forall k :: 0 <= k < |prefix| ==> pieces[k] == prefix[k]
    ensures forall k :: 0 <= k < |gs| ==>
      && pieces[|prefix| + k] == SectionPage(gs[k], world, miniLogo)
      && pieces[|prefix| + k][..2] == [Paragraph(gs[k].key, CategoriaTitle), Spacer]
    ensures pieces[|prefix| + |gs|] == []
  {
    var sections := SectionPages(gs, world, miniLogo);
    forall k | 0 <= k < |gs|
      ensures pieces[|prefix| + k] == SectionPage(gs[k], world, miniLogo)
    {
      assert pieces[|prefix| + k] == sections[k];
    }
  }

  /** Cutting the story at its page breaks gives back its pages, then an empty piece. */
  lemma {:induction false} StorySplit(df: Frame, byCategory: seq<Group>, world: World, miniLogo: Option<Bytes>, cover: Option<Cover>)
    ensures Split(Story(df, byCategory, world, miniLogo, cover), [PageBreak]) == Pages(df, byCategory, world, miniLogo, cover) + [[]]
  {
    NoBreakInPages(df, byCategory, world, miniLogo, cover);
    SplitTerminated(Pages(df, byCategory, world, miniLogo, cover), PageBreak);
  }

  /** One PageBreak per group, plus one when there is a cover. */
  lemma {:induction false} PageBreakCount(df: Frame, byCategory: seq<Group>, world: World, miniLogo: Option<Bytes>, cover: Option<Cover>)
    ensures multiset(Story(df, byCategory, world, miniLogo, cover))[PageBreak]
         == (if cover.Some? then 1 else 0) + |Grouping(df, byCategory)|
  {
    NoBreakInPages(df, byCategory, world, miniLogo, cover);
    TerminatedCount(Pages(df, byCategory, world, miniLogo, cover), PageBreak);
  }

  /**
   * Without a `categoria` column the story has, after the cover page when there is
   * one, a single section headed "Todos" whose table shows every row in order.
   */
  lemma {:induction false} WithoutCategoryColumn(df: Frame, byCategory: seq<Group>, world: World, miniLogo: Option<Bytes>, cover: Option<Cover>)
    requires "categoria" !in df.columns
    ensures Split(Story(df, byCategory, world, miniLogo, cover), [PageBreak])
         == (if cover.Some? then [CoverPage(cover.value, world)] else [])
            + [SectionPage(Group(ALL_ITEMS, df.rows), world, miniLogo), []]
  {
    var page := SectionPage(Group(ALL_ITEMS, df.rows), world, miniLogo);
    StorySplit(df, byCategory, world, miniLogo, cover);
    OneGroupPages(df, byCategory, world, miniLogo, cover);
    if cover.Some? {
      assert [CoverPage(cover.value, world)] + [page] + [[]] == [CoverPage(cover.value, world)] + [page, []];
    } else {
      assert [] + [page] + [[]] == [] + [page, []];
    }
  }

  /** Without a `categoria` column the pages are the cover page, when there is one, and the page of "Todos". */
  lemma OneGroupPages(df: Frame, byCategory: seq<Group>, world: World, miniLogo: Option<Bytes>, cover: Option<Cover>)
    requires "categoria" !in df.columns
    ensures Pages(df, byCategory, world, miniLogo, cover)
         == (if cover.Some? then [CoverPage(cover.value, world)] else []) + [SectionPage(Group(ALL_ITEMS, df.rows), world, miniLogo)]
  {
    var all := Group(ALL_ITEMS, df.rows);
    assert Grouping(df, byCategory) == [all];
    assert SectionPages([all], world, miniLogo) == [SectionPage(all, world, miniLogo)];
  }
}
