# Token grid to token table converter, in Dafny

This is a model of `table-converter.js`, the script of the design-token
documentation page that rewrites the "semantic" colour sections. The page has a
container with id `semantic`. In it, each `h3` heading is followed, somewhere
among its later siblings, by a `token-grid` element. After a short delay the
script replaces that grid with a `token-table` built from a fixed catalogue.

The model has five modules:

- `Text`: the JavaScript string operations the script uses.
  - `String.prototype.trim`, stripping ECMAScript WhiteSpace and LineTerminator code points.
  - `replace(pattern, '')` with a string pattern, which removes the first occurrence only.
  - Small scanning helpers for the markup reader.
- `Tokens`: the `semanticSections` catalogue. It has five sections and 46 tokens, copied verbatim.
- `Render`:
  - `needsWhiteText`;
  - the table `createTokenTable` lays out, as structured rows;
  - the markup it writes;
  - a reader that parses that markup back into the rows. The reader takes every
    character between the tags literally. It agrees with the browser's `innerHTML`
    parser only on cell texts free of `<`, `&`, carriage returns and NUL characters,
    and on colour values that are also free of `;` and `"`. The catalogue is proved
    to meet these conditions.
- `CatalogueText`: the proof that every token text in the catalogue is plain in that
  sense, checked character by character.
- `Converter`: the `setTimeout` callback.
  - The container is a `Container` object whose `children` sequence `replaceChild` updates in place.
  - The `forEach` body is the method `ProcessH3`, and its `nextElementSibling` walk is the loop method `NextGrid`.
  - The loop over the headings is `ProcessHeadings`, and the whole callback is `ConvertSemantic`, which runs it on the catalogue.
  - The methods are proved equal to the specification functions `ProcessHeading` and `Converted`. Those functions take the renderer as a parameter, and the lemmas about them hold for any renderer and any catalogue.

## Model

| member | source | states |
|---|---|---|
| Tokens.CatalogueShape | table-converter.js:4-76 | The catalogue has five sections, in order "Surface Colors", "Interactive Colors", "Text Colors", "Stroke Colors", "Icon Colors", with 8, 14, 9, 7 and 8 tokens. |
| Tokens.TitlesDistinct | table-converter.js:4-76 | No two catalogue sections share a title. |
| CatalogueText.CataloguePlain | table-converter.js:4-76 | No name, value or usage in the catalogue holds `<`, `&`, a carriage return or a NUL character, and no value holds `;` or `"`. |
| CatalogueText.SurfaceColorsPlain | table-converter.js:5-17 | Every Surface Colors token is plain. |
| CatalogueText.InteractiveColorsPlain | table-converter.js:18-36 | Every Interactive Colors token is plain. |
| CatalogueText.TextColorsPlain | table-converter.js:37-50 | Every Text Colors token is plain. |
| CatalogueText.StrokeColorsPlain | table-converter.js:51-62 | Every Stroke Colors token is plain. |
| CatalogueText.IconColorsPlain | table-converter.js:63-75 | Every Icon Colors token is plain. |
| CatalogueText.TokenPlain | table-converter.js:4-76 | A token whose characters avoid those characters one by one is plain. |
| Converter.MatchedSection | table-converter.js:127-128 | The section a heading's trimmed text names, if any. Its facts are stated by `FindByTitle`, `FindByTitleDistinct` and, for the page, `FirstMatchGetsGrid` and `EveryMatchGetsItsGrid`. |
| Converter.FindByTitle | table-converter.js:128 | `find` by title returns the first section whose title equals the text, or nothing when no title does. |
| Converter.FindByTitleDistinct | table-converter.js:128 | When titles are distinct, looking up a section's own title yields that section. |
| Converter.FindsEverySection | table-converter.js:128 | Each of the five catalogue sections is found by its own title. |
| Render.NeedsWhiteText | table-converter.js:113-117 | `needsWhiteText`, as membership of the light-colour list. It has no contract of its own; `NeedsWhiteTextIff` and `NeedsWhiteTextCaseSensitive` state its facts. |
| Render.NeedsWhiteTextIff | table-converter.js:113-117 | `needsWhiteText` holds for exactly the eight listed light colours and for no other string. |
| Render.NeedsWhiteTextCaseSensitive | table-converter.js:115-116 | The test is exact string membership: `#FAFAFA` needs a border, `#fafafa` does not. |
| Render.TokenRow | table-converter.js:92-105 | One token's row: its name, value and usage cells, and a swatch painted with its value and bordered exactly when the value is a light colour. Its facts are stated by `TokenRowsAt` and `SectionTableRows`. |
| Render.SwatchMarkup | table-converter.js:100 | The swatch `div` with its background colour and, for light colours, its border. Its facts are stated by `SwatchRoundTrip`. |
| Render.RowMarkup | table-converter.js:92-105 | One `<tr>` of the body with its four cells. Its facts are stated by `RowRoundTrip`, `RowOpensWithTr` and `RowThenRows`. |
| Render.RowsMarkup | table-converter.js:91-106 | The joined rows. Its facts are stated by `RowsRoundTrip`, `RowsStep` and `ParseRowsStep`. |
| Render.HeaderMarkup | table-converter.js:83-88 | The header cells, each in a `<th>`. Its facts are stated by `HeaderRoundTrip`. |
| Render.TableMarkup | table-converter.js:81-108 | The `<table>` element. Its facts are stated by `TableRoundTrip`, `StripTitle` and `InsertedTableReadsBack`. |
| Render.TitleMarkup | table-converter.js:80 | The `<h3>` heading in front of the table, which the callback cuts out again. Its facts are stated by `StripTitle` and `InsertedIsTable`. |
| Render.TokenRows | table-converter.js:91-106 | The `tokens.map(...)` of the template, one structured row per token. Its facts are stated by `TokenRowsAt` and `SectionTableRows`. |
| Render.SectionTable | table-converter.js:81-108 | The table `createTokenTable` lays out. Its facts are stated by `SectionTableRows` and `TableRoundTrip`. |
| Render.CreateTokenTable | table-converter.js:78-111 | `createTokenTable(section)`: the `<h3>` title followed by the table markup. Its facts are stated by `StripTitle` and `InsertedTableReadsBack`. |
| Render.SectionTableRows | table-converter.js:78-111 | The table of a section has the header cells Token, Value, Visual example, Semantic usage, then one row per token in order. Each row shows the token's name, value and usage, its swatch is painted with the value, and the swatch has a border exactly when the value is a light colour. |
| Render.TokenRowsAt | table-converter.js:91-106 | `tokens.map(...)` gives as many rows as tokens, row k built from token k. |
| Render.StripTitle | table-converter.js:140 | Cutting `<h3>title</h3>` out of `createTokenTable(section)` (with the section's own title) leaves exactly the `<table>` element's markup. |
| Render.SwatchRoundTrip | table-converter.js:100 | The swatch `div` reads back as its background colour and border flag, whenever the colour holds none of `<`, `&`, `;` and `"`. |
| Render.RowRoundTrip | table-converter.js:92-105 | A body row reads back as its name, value, swatch and usage, leaving the text after it untouched. |
| Render.RowOpensWithTr | table-converter.js:92 | Every row starts with `<tr>`. |
| Render.RowThenRows | table-converter.js:91-106 | A row followed by rows that read back reads back as that row and those rows. |
| Render.ParseRowsStep | table-converter.js:91-106 | Reading rows from text that opens with a row yields that row followed by the rows read from what comes after it. |
| Render.RowsRoundTrip | table-converter.js:91-106 | The joined rows read back as the same rows, in order. |
| Render.RowsStep | table-converter.js:91-106 | A row in front of rows that read back reads back as that row and those rows. |
| Render.HeaderRoundTrip | table-converter.js:83-88 | The header row reads back as the same cells, in order. |
| Render.TableRoundTrip | table-converter.js:81-108 | The whole `<table>` element reads back as its header cells and rows, with nothing left over. |
| Render.HeaderCellsPlain | table-converter.js:84-87 | None of the four header cells holds `<`, `&`, a carriage return or a NUL character. |
| Render.PlainTokenTable | table-converter.js:78-111 | A section whose texts hold no `<`, `&`, carriage return or NUL character (and whose values hold no `;` or `"`) gives a table whose cells and swatch colours meet the same conditions. |
| Render.InsertedTableReadsBack | table-converter.js:139-142 | For such a section, the markup put into the temporary container, with its heading cut out, reads back as exactly that section's table. |
| Text.IsTrimmable | table-converter.js:127 | The ECMAScript WhiteSpace and LineTerminator code points that `trim` strips. Its facts are stated by `TrimStartSuffix`, `TrimEndPrefix` and `TrimIdempotent`. |
| Text.Trim | table-converter.js:127 | `textContent.trim()`. Its facts are stated by `TrimStartSuffix`, `TrimEndPrefix`, `TrimPadded` and `TrimIdempotent`. |
| Text.TrimStartSuffix | table-converter.js:127 | Stripping leading whitespace keeps a suffix, drops only whitespace, and stops at the first character that is not whitespace. |
| Text.TrimEndPrefix | table-converter.js:127 | Stripping trailing whitespace keeps a prefix, drops only whitespace, and stops at the last character that is not whitespace. |
| Text.TrimStartPadded | table-converter.js:127 | Leading whitespace before a text that does not start with whitespace is cut off. |
| Text.TrimEndPadded | table-converter.js:127 | Trailing whitespace after a text that does not end with whitespace is cut off. |
| Text.TrimPadded | table-converter.js:127 | `trim` gives back the trimmed text from any whitespace padding on either side. |
| Text.TrimStartTrimmable | table-converter.js:127 | A string made only of whitespace trims to the empty string. |
| Text.TrimIdempotent | table-converter.js:127 | The result of `trim` has no whitespace at either end, and trimming it again changes nothing. |
| Text.RemoveFirst | table-converter.js:140 | `replace(pattern, '')` with a string pattern. Its facts are stated by `RemoveFirstAt`, `RemoveFirstAbsent` and `RemoveFirstPrefix`. |
| Text.IndexOfFrom | table-converter.js:140 | The search finds the first position at or after the start where the pattern occurs, or reports that it occurs nowhere from there on. |
| Text.RemoveFirstAt | table-converter.js:140 | `replace(pattern, '')` cuts out exactly the leftmost occurrence. |
| Text.RemoveFirstAbsent | table-converter.js:140 | Without an occurrence, `replace` returns the string unchanged. |
| Text.RemoveFirstPrefix | table-converter.js:140 | A string that starts with the pattern loses exactly that prefix. |
| Text.Expect | table-converter.js:139-140 | The reader's literal match succeeds exactly when the text starts with the literal, and gives the rest after it. |
| Text.ExpectPrefix | table-converter.js:139-140 | Matching a literal in front of a rest gives that rest. |
| Text.SplitAt | table-converter.js:139-140 | Splitting before the first occurrence of a character gives two parts that concatenate to the input, the first free of that character. |
| Text.SplitAtConcat | table-converter.js:139-140 | Splitting text free of `c` followed by `c` and a tail splits exactly there. |
| Text.SplitAtBefore | table-converter.js:139-140 | Splitting text free of `c` that is followed by a rest starting with `c` gives back the two parts. |
| Converter.HasClass | table-converter.js:133-137 | `classList.contains`; an inserted table carries only `token-table`. It is used by the contracts of `FirstGridFrom` and `NextGrid`. |
| Converter.FirstGridFrom | table-converter.js:133-137 | The first sibling at or after a position that carries class `token-grid`, or none when no later sibling does. |
| Converter.FirstGridIs | table-converter.js:133-137 | A grid with no grid before it, from the start position on, is the one the search finds. |
| Converter.NextGrid | table-converter.js:132-137 | The `nextElementSibling` loop stops at the first later sibling with class `token-grid` and finds none when there is none; it agrees with `FirstGridFrom`. |
| Converter.HeadingsFrom | table-converter.js:124 | `querySelectorAll('h3')` lists every heading position, each once, in document order. |
| Converter.Container.ReplaceChild | table-converter.js:142 | `replaceChild` puts the new child at the old child's position and leaves every other child unchanged. |
| Converter.InsertedMarkup | table-converter.js:139-140 | The markup put into the temporary container: `createTokenTable` with `<h3>title</h3>` cut out. Its facts are stated by `InsertedIsTable` and `CatalogueTablesReadBack`. |
| Converter.ProcessHeading | table-converter.js:126-144 | One `forEach` step, as a function of the children. Its facts are stated by `ProcessHeadingReplacesFirstGrid`, `ProcessHeadingNoOp` and `ProcessHeadingRewrites`. |
| Converter.ProcessAll | table-converter.js:124-145 | The steps for a list of heading positions, in order. Its facts are stated by `ProcessAllRewrites` and `ProcessAllOne`. |
| Converter.Converted | table-converter.js:124-145 | The whole pass over the headings listed before any change. Its facts are stated by `FirstMatchGetsGrid` and `EveryMatchGetsItsGrid` (what is replaced), and by `ConvertedRewritesOnlyGrids`, `ConvertedWithoutMatchingHeading`, `ConvertedWithoutGrid` and `GridWithoutMatchingHeadingKept` (what may change). |
| Converter.ProcessH3 | table-converter.js:126-145 | One `forEach` step on the container, looking titles up in the given sections, equals `ProcessHeading` with those sections and the callback's renderer. |
| Converter.ProcessHeadings | table-converter.js:124-145 | Listing the headings once and running the step for each in order leaves the children as `Converted` with the given sections and the callback's renderer. |
| Converter.ConvertSemantic | table-converter.js:120-147 | Without the container nothing happens. Otherwise its children end up as `Converted` with the catalogue and the callback's renderer. |
| Converter.ProcessHeadingReplacesFirstGrid | table-converter.js:127-142 | A heading that names a section makes the first later grid, and only it, give way to that section's rendered table. |
| Converter.ProcessHeadingNoOp | table-converter.js:126-144 | A position past the end, a node that is not a heading, a heading naming no section, or a heading with no later grid changes nothing. |
| Converter.ProcessHeadingRewrites | table-converter.js:126-145 | One step keeps the invariant that every child is original or a grid replaced by a table rendered for an earlier matching heading. |
| Converter.ProcessAllRewrites | table-converter.js:126-145 | The invariant holds after any sequence of steps. |
| Converter.ConvertedRewritesOnlyGrids | table-converter.js:120-147 | The pass keeps the number and order of the children. Every child it changes was a grid, and is now the table rendered for the section some earlier heading names. |
| Converter.ConvertedWithoutMatchingHeading | table-converter.js:128-130 | With no heading naming a section, the children are unchanged. |
| Converter.GridWithoutMatchingHeadingKept | table-converter.js:128-137 | A grid with no matching heading before it stays. |
| Converter.ConvertedWithoutGrid | table-converter.js:133-137 | With no grid, the children are unchanged. |
| Converter.ProcessHeadingKeepsNonGrid | table-converter.js:131-142 | One step changes only a grid: every other child keeps its position and value. |
| Converter.PrefixKeeps | table-converter.js:124-145 | Later steps keep every child that is no longer a grid, in particular an inserted table. |
| Converter.PrefixNoOps | table-converter.js:126-130 | Steps for headings that name no section change nothing. |
| Converter.MatchStep | table-converter.js:127-142 | A step at a matching heading whose children from its position on are original replaces that heading's first later grid with its section's rendered table. |
| Converter.MatchStepSticks | table-converter.js:124-145 | Such a replacement survives every later step of the pass. |
| Converter.FirstMatchGetsGrid | table-converter.js:124-145 | In any list of children, the first heading that names a section has its first later grid replaced by that section's rendered table. |
| Converter.StepKeepsChangesBefore | table-converter.js:126-145 | On a page with a grid between any two matching headings, one step keeps every change a table lying before the matching headings still to come. |
| Converter.ChangesStayBefore | table-converter.js:124-145 | That holds after any number of steps. |
| Converter.EveryMatchGetsItsGrid | table-converter.js:124-145 | On a page with a grid between any two matching headings, every matching heading has its first later grid replaced by its own section's rendered table. |
| Converter.CatalogueLayoutConverted | table-converter.js:120-147 | On such a page, with the catalogue and the callback's renderer, every heading naming a catalogue section has its first later grid replaced by that section's `<table>` element. |
| Converter.SurfaceColorsFirstHeading | table-converter.js:120-147 | In any list of children, a "Surface Colors" heading, trimmed, that is the first matching heading has its first later grid replaced by the Surface Colors table. |
| Converter.OneHeadingFold | table-converter.js:124-126 | For a heading followed by a non-heading, the pass is the single step for that heading. |
| Converter.ProcessAllOne | table-converter.js:126 | Folding over one heading position is that heading's step. |
| Converter.HeadingThenGrid | table-converter.js:126-142 | A matching heading followed by a grid gives the heading followed by that section's rendered table. |
| Converter.TableFor | table-converter.js:140-142 | The `<table>` element of a section, as a node. Its facts are stated by `InsertedIsTable`, `CatalogueTablesReadBack` and `CatalogueLayoutConverted`. |
| Converter.InsertedIsTable | table-converter.js:140-142 | The node inserted for a matched section is that section's `<table>` element alone, with no heading. |
| Converter.ConvertedRendersTables | table-converter.js:120-147 | For a renderer giving a fixed table per section, each changed child is a former grid that now holds the table of the section an earlier heading names. |
| Converter.CallbackInsertsSectionTables | table-converter.js:120-147 | With the callback's renderer, each changed child is a former grid now holding the `<table>` element of the section some earlier heading names. |
| Converter.SurfaceColorsReplaced | table-converter.js:120-147 | A heading reading "Surface Colors", with any surrounding whitespace, followed by a grid: the heading stays and the grid becomes the Surface Colors table. |
| Converter.GridTakenPastNextHeading | table-converter.js:131-137 | The sibling walk does not stop at the next heading. For a matching heading, then a heading that names no section, then a grid, the grid becomes the first heading's table. |
| Converter.SurfaceColorsTakesLaterGrid | table-converter.js:131-142 | A "Surface Colors" heading, then a heading naming no catalogue section, then a grid: the grid becomes the Surface Colors table. |
| Converter.CatalogueTablesReadBack | table-converter.js:139-142 | For every catalogue section, the markup inserted in the grid's place reads back as that section's table, with one row per token. |
| Converter.SurfaceColorsTableHasEightRows | table-converter.js:5-17 | The table inserted for Surface Colors reads back as that section's table, which has eight rows. |

## Left out

- The `DOMContentLoaded` listener and the 100 ms `setTimeout` are not modelled: the model runs the callback once, as `ConvertSemantic`.
- The DOM is one level deep. The container's children are the headings and their siblings. `querySelectorAll('h3')` also finds headings nested deeper, and their siblings are not modelled.
- Elements other than headings carry only their classes. The model has no text nodes, because `nextElementSibling` skips them.
- The browser's `innerHTML` parser is not modelled. `tableContainer.firstElementChild` is modelled as the node holding the markup with the heading cut out. `Render.ParseTable` is a reader for that markup, standing in for what the parser recovers.
- The template's indentation and line breaks between tags are not reproduced in the markup. Every character inside tags, attribute values and cells is.
- A heading that an earlier step replaced is detached, and its missing `nextElementSibling` makes its step a no-op. The model reproduces this as "the node at that position is no longer a heading".
- Render.InsertedTableReadsBack: the reader is not an HTML parser. It recovers the table only from texts free of `<`, `&`, carriage returns and NUL characters, with values also free of `;` and `"`. Character references and quoting are not modelled. `CatalogueText.CataloguePlain` proves that every catalogue text meets these conditions.
- JavaScript strings are sequences of UTF-16 code units, and Dafny strings are sequences of Unicode scalar values. A lone surrogate therefore cannot be expressed, and a character outside the Basic Multilingual Plane is one character here but two units in the source. The source compares and searches whole strings only, so no result depends on the difference.
- `trim` uses the Space_Separator code points current Unicode lists. There is no case folding or normalisation, and none is done in the source.
