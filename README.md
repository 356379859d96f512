# catalogo5-app: the document builders, modelled in Dafny

The application (`streamlit_app.py`) turns a product sheet into three documents: a
PDF catalog, a PDF visual guide and an editable Word file. This project models the
part of it that decides what goes into those documents:

- **Image resolver** (`descargar_imagen_bytes`, module `Resolver`): a product's
  `imagen` reference is blank (empty, or "nan" in any letter case) or is turned
  into a request address. A Google Drive link carrying `/d/<id>` or `id=<id>` is
  rewritten to the direct-view address `https://drive.google.com/uc?export=view&id=<id>`.
  Any other address is requested unchanged. The bytes come back only when the
  status is 200 and the content type contains "image". Every other outcome gives
  no image, including a transport failure.
- **PDF catalog** (`generar_catalogo_pdf`, module `Catalog`): the story of
  reportlab flowables handed to `doc.build`.
  - An optional cover comes first: spacer, logo, title in bold, subtitle, then a
    PageBreak.
  - Then each category group: its heading, a spacer, and a table of product cards
    two per row, then a PageBreak. A group without products has no table.
  - A card has five elements: the image or the placeholder text, the bold name,
    the description, the price and the stock. A sixth element, the mini-logo,
    is added when one is given and reportlab takes it.
  - The rows come from the `fila`/`celdas` accumulate-and-flush loop.
  - Without a `categoria` column there is one group, "Todos", holding every row.
- **Visual guide** (`generar_mockup_visual`, module `Mockup`): a title, a spacer,
  and four captioned zones with their background colours, each followed by a spacer.
- **Editable version** (`generar_version_editable_docx`, module `Docx`): nothing
  when python-docx is missing. Otherwise the blocks added to the document:
  - a title heading, the generation date and a blank paragraph;
  - per row: the name heading, the category, the description when it is not
    empty, the price, the stock, the picture when it resolves and python-docx
    takes it, and a blank paragraph.

Python's `str.find`, `in` and `str.split` are modelled generically over sequences
in module `Seqs` (`IndexOf`, `Contains`, `Split`). The same module holds the packing
of a sequence into fixed-size chunks (`Chunks`), which is the specification of the
`fila`/`celdas` loop. It also holds `Terminated`, which closes every piece with a
separator; page breaks close the PDF pages and blank paragraphs close the Word
entries. The reportlab flowables that both PDF builders put in their stories (styled
paragraphs, spacers, images, card tables, zones, page breaks) are declared once, in
module `Flowables`. A sheet row is a map from column name to cell text (`Rows.Field` gives ""
for a missing column, as `row.get(key, "")` does).

Each imperative builder is a method whose loop is proved against a specification
function (`BuildGroupRows` against `GroupRows`, `BuildStory` against `Story`,
`BuildMockup` against `MockupStory`, `BuildDocx` against `Document`). The lemmas
state what those functions guarantee.

The outside world is passed in as functions:
- `fetch` is the HTTP GET;
- `embeds` and `inserts` say whether reportlab or python-docx accepts some bytes
  as a picture (the `try/except: pass` blocks) in the PDF and the Word file;
- `generated` is the formatted clock reading.

How the code behaves where a reader might expect otherwise:
- A row field is read under its lowercase name only (`row.get("nombre", "")`
  and so on). There is no fallback to a capitalised key, and a missing
  `categoria` is not replaced by a default category.
- The groups come from `df.groupby("categoria")`, which orders them by key, not
  by first appearance. The model takes the list of groups as given
  (`byCategory`); only the "Todos" fallback is decided inside the model.
- The cover has no generation timestamp, and the catalog has no page footer.

## Model

| member | source | states |
|---|---|---|
| Rows.Field | streamlit_app.py:156-160 | a row's field is the cell under its lowercase column name, or "" when the row has no such column (`str(row.get(key, ""))`); defining function, no contract of its own |
| Resolver.IsBlank | streamlit_app.py:97-98 | a reference is blank exactly when it is empty or one of the eight letter-case spellings of "nan" |
| Resolver.RewriteUrl | streamlit_app.py:99-105 | the requested address is the reference itself or starts with the direct-view prefix; only a Drive link carrying "/d/" or "id=" is changed; a "/d/" identifier holds no "/" and an "id=" identifier holds no "&" |
| Resolver.RequestUrl | streamlit_app.py:97-106 | no request is made exactly when the reference is blank; otherwise RewriteUrl of the reference is requested |
| Resolver.Accept | streamlit_app.py:107-108 | a response is accepted exactly when its status is 200 and "image" occurs in its content type |
| Resolver.Download | streamlit_app.py:95-111 | a blank reference never yields bytes; bytes only come from a status-200 response to the rewritten address, and they are its body |
| Resolver.DownloadResult | streamlit_app.py:95-111 | bytes come back exactly when the reference is not blank and the fetch of the rewritten address is a response with status 200 whose content type (missing header: "") contains "image" |
| Resolver.DownloadAsksOnlyRequestUrl | streamlit_app.py:97-106 | the result depends on the fetcher only at the requested address |
| Resolver.DrivePathLink | streamlit_app.py:99-102 | a Drive link `…/d/<id>` followed by nothing or by "/…" is requested as the direct-view address of exactly `<id>`, whatever follows ("/d/" wins over "id=") |
| Resolver.DriveQueryLink | streamlit_app.py:103-105 | for a Drive link with "id=" and no "/d/", the identifier is the text after the first "id=" up to the first "&", the next "id=" or the end, and it holds neither "&" nor "id=" |
| Seqs.IndexOf | streamlit_app.py:99-104 | the position found is an occurrence and no earlier one exists; none is found exactly when there is no occurrence (Python `in` / `find`) |
| Seqs.Split | streamlit_app.py:101-104 | the pieces joined with the separator give back the input, no piece contains the separator, and there are two or more pieces exactly when the separator occurs (Python `str.split`) |
| Seqs.SplitAtFirst | streamlit_app.py:101-104 | splitting at a first occurrence gives the text before it, then the split of the rest |
| Seqs.Chunks | streamlit_app.py:190-195 | chunks flatten back to the input in order; each has 1 to n items; all but the last have exactly n |
| Seqs.ChunksCount | streamlit_app.py:190-195 | there are ceil(len / n) chunks |
| Seqs.ChunksAppend | streamlit_app.py:190-195 | after full chunks, a final partial group becomes the last chunk (the `if fila:` flush) |
| Seqs.PackedStep | streamlit_app.py:190-193 | appending a card to the pending row keeps the packing invariant, flushing the row when it reaches n cards |
| Seqs.PackedDone | streamlit_app.py:194-195 | flushing the pending row, when there is one, gives exactly the chunks of all the cards |
| Seqs.SplitTerminated | streamlit_app.py:140-206 | cutting a sequence of terminated pieces at the terminator gives back the pieces, then an empty piece |
| Seqs.TerminatedCount | streamlit_app.py:140-206 | a sequence of terminated pieces holds exactly one terminator per piece |
| Catalog.CardFor | streamlit_app.py:162-180 | a card has 5 elements, or 6 exactly when a mini-logo is given and accepted (then the last is that mini-logo); it opens with the placeholder text exactly when the image does not resolve, and with the image bytes otherwise |
| Catalog.CardRoundTrip | streamlit_app.py:156-174 | a card's text reads back as exactly the row's name, description, price and stock, whether or not its image resolved |
| Catalog.Cards | streamlit_app.py:155-189 | one card per row of the group |
| Catalog.CardsAt | streamlit_app.py:155-190 | the k-th card is the card of the k-th row: a product whose image fails keeps its place |
| Catalog.GroupRows | streamlit_app.py:153-195 | a group's table rows are its cards cut into chunks of two; defining function, its properties are in GroupRowsShape |
| Catalog.GroupRowsShape | streamlit_app.py:153-197 | a group's table has ceil(len / 2) rows, none exactly when the group is empty; rows hold 1 or 2 cards, all but the last hold 2, and read in order they give every product of the group |
| Catalog.BuildGroupRows | streamlit_app.py:153-195 | the `fila`/`celdas` loop produces exactly the group's cards cut into rows of two |
| Catalog.CoverPage | streamlit_app.py:127-139 | the cover page is, in this order, a spacer; the logo image and a spacer when a logo is given and accepted; the bold title and a spacer when the title is not empty; the subtitle and a spacer when it is not empty; and nothing else (its length is fixed), so it holds no PageBreak |
| Catalog.SectionLayout | streamlit_app.py:150-205 | a section is its heading and a spacer, followed by the table of its rows when there are rows and by nothing else (2 or 3 flowables); it holds no PageBreak |
| Catalog.SectionPage | streamlit_app.py:150-205 | a group's page is the section of its key and its table rows; defining function, its properties come from SectionLayout and GroupRowsShape |
| Catalog.Grouping | streamlit_app.py:146 | the groups are those of the `categoria` column, or the single group "Todos" of every row without that column; defining function, see WithoutCategoryColumn |
| Catalog.Story | streamlit_app.py:116-206 | the story is every page (cover first when given) followed by a PageBreak; defining function, see StoryPages and PageBreakCount |
| Catalog.AppendCover | streamlit_app.py:123-140 | the cover appends a spacer, the accepted logo and a spacer, the bold title and a spacer when the title is not empty, the subtitle and a spacer when it is not empty, then a PageBreak |
| Catalog.AppendSection | streamlit_app.py:149-206 | a group appends its heading, a spacer, its table when it has rows, then a PageBreak |
| Catalog.AppendSections | streamlit_app.py:149-206 | the group loop appends every group's section, each closed by a PageBreak, in order |
| Catalog.BuildStory | streamlit_app.py:116-206 | the story built step by step is the optional cover page and every group's page, each followed by a PageBreak |
| Catalog.StoryAfterCover | streamlit_app.py:123-149 | the story is the cover and its PageBreak, when there is a cover, followed by the terminated section pages |
| Catalog.NoBreakInSections | streamlit_app.py:149-205 | no group's page holds a PageBreak of its own |
| Catalog.NoBreakInPages | streamlit_app.py:123-206 | no page (cover or section) holds a PageBreak of its own; the only PageBreaks are those closing the pages |
| Catalog.StorySplit | streamlit_app.py:140-206 | cutting the story at its PageBreaks gives its pages, then an empty piece |
| Catalog.StoryPages | streamlit_app.py:123-206 | cut at its PageBreaks the story is the cover page (when given), then one page per group in order, each opening with heading and spacer, then an empty piece after the final PageBreak |
| Catalog.PageBreakCount | streamlit_app.py:140-206 | the story holds one PageBreak per group, plus one when there is a cover |
| Catalog.OneGroupPages | streamlit_app.py:146 | without a `categoria` column the pages are the cover page, when given, and the page of the group "Todos" holding every row |
| Catalog.WithoutCategoryColumn | streamlit_app.py:146 | without a `categoria` column, cut at its PageBreaks the story is the cover page when given, then one "Todos" section holding every row, then an empty piece |
| Mockup.MockupStory | streamlit_app.py:220-239 | the guide has 10 flowables: the title and a spacer, then exactly the four listed zones in order, each followed by a spacer |
| Mockup.BuildMockup | streamlit_app.py:215-239 | the loop over `zonas` builds exactly the guide |
| Mockup.ZoneBlocksAt | streamlit_app.py:230-239 | zone k is at position 2k with a spacer right after it, and there are two flowables per zone |
| Docx.EntryBlocks | streamlit_app.py:265-279 | an entry has 4 blocks plus one for a non-empty description and one for an inserted picture; it opens with the name heading (level 2) and the category; the picture, when present, is last and is the downloaded bytes |
| Docx.Document | streamlit_app.py:252-280 | the document is the header and every row's entry, each closed by a blank paragraph; defining function, see DocumentPieces and BlankCount |
| Docx.AppendText | streamlit_app.py:265-270 | appends the name heading, the category, the description when not empty, the price and the stock |
| Docx.AppendEntry | streamlit_app.py:257-280 | one row appends its text, the picture when it resolves and is inserted, and a blank paragraph |
| Docx.BuildDocx | streamlit_app.py:248-285 | no document exactly when python-docx is missing; otherwise the header and every row's entry, each closed by a blank paragraph |
| Docx.EntryRoundTrip | streamlit_app.py:258-270 | an entry's text reads back as exactly the row's name, category, description, price and stock |
| Docx.NoBlankInPieces | streamlit_app.py:252-279 | neither the header nor any entry contains a blank paragraph |
| Docx.DocumentPieces | streamlit_app.py:252-280 | the document opens with the title, the date and a blank paragraph; cut at its blank paragraphs it is the header, then every row's entry in order, then an empty piece |
| Docx.BlankCount | streamlit_app.py:255-280 | the document holds one blank paragraph for the header and one per row |

## Left out

- The Streamlit interface, the Google Sheets connection, the sheet template and
  the download buttons are not part of this model. They only collect the inputs
  and deliver the outputs.
- The HTTP GET is the `fetch` parameter. Its 10-second timeout and every
  exception it can raise are folded into the `Failed` response.
- Rendering is not modelled:
  - page size, fonts, sizes in cm, alignment and table styles;
  - the theme colour of the PDF;
  - the `BytesIO` buffers and `doc.build` / `doc.save`.
  The flowables and blocks keep their content and paragraph style names only.
  The mockup zones keep their captions and background colours.
- The clock: the date line of the Word file takes the formatted date as the
  `generated` parameter.
- `df.groupby("categoria")`: the groups are an input. Their order, their
  membership and the rows pandas leaves out (those with a missing category)
  are not modelled.
- Cells are text. `str()` of a non-text cell is not modelled, and neither is an
  `imagen` value that is not a string (a float NaN, which the source's `str(url)`
  turns into "nan", is covered only as the text "nan").
- Resolver.IsBlank: lowercases ASCII letters only, where Python's `str.lower`
  also maps other letters. No other letter lowercases to a single "n" or "a",
  so the "nan" test comes out the same; the full Unicode case mapping itself is
  not modelled.
- Catalog.CardFor: a product's downloaded image is put into its card
  unconditionally. The source builds that `RLImage` outside any `try`, so bytes
  that reportlab cannot read make the whole PDF build fail; the model does not
  represent that failure, while the logo and mini-logo, which are guarded, go
  through `embeds`.
- Catalog.World: `fetch` and `embeds` are functions of their argument, so
  within one model every request for the same address gets the same response,
  and the same bytes are always accepted or always refused by reportlab. The
  program issues a fresh `requests.get` for every row and a fresh `RLImage` for
  every card, over a network that can fail intermittently. No stated property
  relies on two equal requests agreeing, but the model cannot show two products
  with the same image reference getting different outcomes.
- Docx.EntryBlocks: the same holds for its `fetch` and `inserts` parameters.
- Failures of `doc.build` or `doc.save` themselves are not modelled.
- Docx.EntryBlocks: a picture that python-docx refuses adds nothing to the
  model's entry. python-docx's `add_picture` first adds an empty paragraph and a
  run, then reads the image, so when it raises inside the `try/except: pass` an
  empty paragraph is left behind in the real document. That paragraph is not
  modelled, and DocumentPieces and BlankCount describe the document without it.
- Docx.BuildDocx: the `st.error` message shown when python-docx is missing is
  not modelled; only the missing result is.
- No lemma evaluates the resolver on concrete sample links. The Drive rewrite is
  stated for all links of each shape instead (Resolver.DrivePathLink,
  Resolver.DriveQueryLink).
