/** Rendering a section as a token table: the light-colour test that decides the swatch
    border, the table as structured rows, its markup as the template writes it, and a
    reader for that markup that recovers the rows. */
module Render {
  import opened Text
  import opened Tokens

  /** The eight light colours whose swatches get a border. */
  const LightColors: seq<string> :=
    ["#FAFAFA", "#EDEDED", "#F5F5F5", "#FFFFFF", "#FAF5E3", "#FFEBEB", "#C4EBD4", "#BADAFA"]

  /** `needsWhiteText`: exact, case-sensitive membership in the light-colour list. */
  predicate NeedsWhiteText(hexColor: string) {
    hexColor in LightColors
  }

  /** The predicate holds for the eight listed strings and for nothing else. */
  lemma NeedsWhiteTextIff(hexColor: string)
    ensures NeedsWhiteText(hexColor) <==>
      hexColor == "#FAFAFA" || hexColor == "#EDEDED" || hexColor == "#F5F5F5" || hexColor == "#FFFFFF"
      || hexColor == "#FAF5E3" || hexColor == "#FFEBEB" || hexColor == "#C4EBD4" || hexColor == "#BADAFA"
  {
  }

  /** Membership is exact: the lower-case spelling of a listed colour does not match. */
  lemma NeedsWhiteTextCaseSensitive()
    ensures NeedsWhiteText("#FAFAFA") && !NeedsWhiteText("#fafafa")
  {
    assert "#fafafa"[1] == 'f';
    forall k | 0 <= k < |LightColors| ensures LightColors[k][1] != 'f' {}
  }

  /** A colour swatch: its background colour and whether it carries the light-colour border. */
  datatype Swatch = Swatch(background: string, bordered: bool)

  /** One body row: name cell, value cell, swatch cell and usage cell. */
  datatype Row = Row(name: string, value: string, swatch: Swatch, usage: string)

  /** A token table: the cells of its single header row and its body rows. */
  datatype Table = Table(header: seq<string>, rows: seq<Row>)

  const HeaderCells: seq<string> := ["Token", "Value", "Visual example", "Semantic usage"]

  /** The row the template writes for one token. */
  function TokenRow(t: Token): Row {
    Row(t.name, t.value, Swatch(t.value, NeedsWhiteText(t.value)), t.usage)
  }

  /** `tokens.map(...)`: one row per token, in order. */
  function TokenRows(ts: seq<Token>): seq<Row> {
    if ts == [] then [] else [TokenRow(ts[0])] + TokenRows(ts[1..])
  }

  /** The table `createTokenTable` lays out for a section. */
  function SectionTable(s: Section): Table {
    Table(HeaderCells, TokenRows(s.tokens))
  }

  lemma {:induction false} TokenRowsAt(ts: seq<Token>)
    ensures |TokenRows(ts)| == |ts|
    ensures forall k :: 0 <= k < |ts| ==> TokenRows(ts)[k] == TokenRow(ts[k])
  {
    if ts != [] {
      TokenRowsAt(ts[1..]);
      assert forall k :: 1 <= k < |ts| ==> TokenRows(ts)[k] == TokenRows(ts[1..])[k - 1];
    }
  }

  /** The table of a section has the four fixed header cells and exactly one row per
      token, in token order; each row shows the token's name, value and usage verbatim,
      its swatch is painted with the token's value, and the swatch is bordered exactly
      when the value is a light colour. */
  lemma SectionTableRows(s: Section)
    ensures SectionTable(s).header == ["Token", "Value", "Visual example", "Semantic usage"]
    ensures |SectionTable(s).rows| == |s.tokens|
    ensures forall k :: 0 <= k < |s.tokens| ==>
      var r := SectionTable(s).rows[k];
      var t := s.tokens[k];
      r.name == t.name && r.value == t.value && r.usage == t.usage
      && r.swatch.background == t.value && (r.swatch.bordered <==> t.value in LightColors)
  {
    TokenRowsAt(s.tokens);
  }

  // ---------------------------------------------------------------------------
  // Markup. The template's indentation and line breaks are not reproduced; every
  // character inside tags and attribute values is.

  const SwatchOpen := "<div class=\"color-swatch-table\" style=\"background-color: "
  const BorderStyle := "border: 1px solid #ddd;"
  const SwatchClose := "\"></div>"
  const RowOpen := "<tr><td><div class=\"token-name\">"
  const NameToValue := "</div></td><td><div class=\"token-value\">"
  const ValueToSwatch := "</div></td><td>"
  const SwatchToUsage := "</td><td><div class=\"token-usage\">"
  const RowClose := "</div></td></tr>"
  const TableOpen := "<table class=\"token-table\"><thead><tr>"
  const HeadToBody := "</tr></thead><tbody>"
  const TableClose := "</tbody></table>"

  // Each markup function writes its element in front of `rest`, the markup that follows
  // it, so that a row followed by the next rows reads as one string.

  function SwatchMarkup(w: Swatch, rest: string): string {
    SwatchOpen + (w.background + ("; " + ((if w.bordered then BorderStyle else "") + (SwatchClose + rest))))
  }

  function RowMarkup(r: Row, rest: string): string {
    RowOpen + (r.name + (NameToValue + (r.value + (ValueToSwatch + SwatchMarkup(r.swatch,
      SwatchToUsage + (r.usage + (RowClose + rest)))))))
  }

  /** `rows.join('')`, followed by `rest`. */
  function RowsMarkup(rows: seq<Row>, rest: string): string {
    if rows == [] then rest else RowMarkup(rows[0], RowsMarkup(rows[1..], rest))
  }

  function HeaderMarkup(cells: seq<string>, rest: string): string {
    if cells == [] then rest else "<th>" + (cells[0] + ("</th>" + HeaderMarkup(cells[1..], rest)))
  }

  /** The `<table>` element. */
  function TableMarkup(t: Table): string {
    TableOpen + HeaderMarkup(t.header, HeadToBody + RowsMarkup(t.rows, TableClose))
  }

  /** The heading the template puts in front of the table. */
  function TitleMarkup(title: string): string {
    "<h3>" + title + "</h3>"
  }

  /** `createTokenTable(section)`. */
  function CreateTokenTable(s: Section): string {
    TitleMarkup(s.title) + TableMarkup(SectionTable(s))
  }

  /** Cutting the first `<h3>title</h3>` out of the rendered section leaves exactly the
      table element. */
  lemma StripTitle(s: Section)
    ensures RemoveFirst(CreateTokenTable(s), TitleMarkup(s.title)) == TableMarkup(SectionTable(s))
  {
    RemoveFirstPrefix(TitleMarkup(s.title), TableMarkup(SectionTable(s)));
  }

  // ---------------------------------------------------------------------------
  // Reading the markup back. The reader takes every character between the tags
  // literally, so it agrees with an HTML parser only on texts free of the characters
  // such a parser treats specially there: `<` opens a tag and `&` a character reference
  // in a cell, a carriage return becomes a line feed and a NUL character is dropped, and
  // `"` closes the `style` attribute.

  /** Text that an HTML parser reads back unchanged from a cell: no tag opening, no
      character reference, no carriage return and no NUL character. */
  predicate PlainText(s: string) {
    '<' !in s && '&' !in s && '\r' !in s && '\0' !in s
  }

  /** A colour value that also reads back unchanged from the `style` attribute, where it
      is followed by `;`: plain text without `;` or `"`. */
  predicate PlainValue(s: string) {
    PlainText(s) && ';' !in s && '"' !in s
  }

  predicate PlainRow(r: Row) {
    PlainText(r.name) && PlainText(r.value) && PlainValue(r.swatch.background) && PlainText(r.usage)
  }

  predicate PlainTable(t: Table) {
    (forall k :: 0 <= k < |t.header| ==> PlainText(t.header[k]))
    && (forall k :: 0 <= k < |t.rows| ==> PlainRow(t.rows[k]))
  }

  function ParseSwatch(s: string): (r: Option<(Swatch, string)>)
    ensures r.Some? ==> |r.value.1| < |s|
  {
    var a :- Expect(s, SwatchOpen);
    var (background, b) := SplitAt(a, ';');
    var c :- Expect(b, "; ");
    var (bordered, d) := match Expect(c, BorderStyle) case Some(e) => (true, e) case None => (false, c);
    var e :- Expect(d, SwatchClose);
    Some((Swatch(background, bordered), e))
  }

  function ParseRow(s: string): (r: Option<(Row, string)>)
    ensures r.Some? ==> |r.value.1| < |s|
  {
    var a :- Expect(s, RowOpen);
    var (name, b) := SplitAt(a, '<');
    var c :- Expect(b, NameToValue);
    var (value, d) := SplitAt(c, '<');
    var e :- Expect(d, ValueToSwatch);
    var sw :- ParseSwatch(e);
    var f :- Expect(sw.1, SwatchToUsage);
    var (usage, g) := SplitAt(f, '<');
    var h :- Expect(g, RowClose);
    Some((Row(name, value, sw.0, usage), h))
  }

  /** Reads rows for as long as the text starts with `<tr>`. */
  function ParseRows(s: string): (r: Option<(seq<Row>, string)>)
    decreases |s|
  {
    if Expect(s, "<tr>").None? then Some(([], s))
    else
      var first :- ParseRow(s);
      var more :- ParseRows(first.1);
      Some(([first.0] + more.0, more.1))
  }

  /** Reads header cells for as long as the text starts with `<th>`. */
  function ParseHeader(s: string): (r: Option<(seq<string>, string)>)
    decreases |s|
  {
    match Expect(s, "<th>")
    case None => Some(([], s))
    case Some(a) =>
      var (cell, b) := SplitAt(a, '<');
      var c :- Expect(b, "</th>");
      var more :- ParseHeader(c);
      Some(([cell] + more.0, more.1))
  }

  /** Reads a whole `<table>` element; anything after it is an error. */
  function ParseTable(s: string): Option<Table> {
    var a :- Expect(s, TableOpen);
    var header :- ParseHeader(a);
    var b :- Expect(header.1, HeadToBody);
    var rows :- ParseRows(b);
    var c :- Expect(rows.1, TableClose);
    if c == [] then Some(Table(header.0, rows.0)) else None
  }

  lemma SwatchRoundTrip(w: Swatch, t: string)
    requires PlainValue(w.background)
    ensures ParseSwatch(SwatchMarkup(w, t)) == Some((w, t))
  {
    var border := if w.bordered then BorderStyle else "";
    var t3 := SwatchClose + t;
    var t2 := border + t3;
    var t1 := "; " + t2;
    ExpectPrefix(SwatchOpen, w.background + t1);
    SplitAtBefore(w.background, ';', t1);
    ExpectPrefix("; ", t2);
    if w.bordered {
      ExpectPrefix(BorderStyle, t3);
    } else {
      assert t2 == t3 && t3[0] == '"';
    }
    ExpectPrefix(SwatchClose, t);
  }

  lemma RowRoundTrip(r: Row, t: string)
    requires PlainRow(r)
    ensures ParseRow(RowMarkup(r, t)) == Some((r, t))
  {
    var t7 := RowClose + t;
    var t6 := r.usage + t7;
    var t5 := SwatchToUsage + t6;
    var t4 := SwatchMarkup(r.swatch, t5);
    var t3 := ValueToSwatch + t4;
    var t2 := r.value + t3;
    var t1 := NameToValue + t2;
    var t0 := r.name + t1;
    ExpectPrefix(RowOpen, t0);
    SplitAtBefore(r.name, '<', t1);
    ExpectPrefix(NameToValue, t2);
    SplitAtBefore(r.value, '<', t3);
    ExpectPrefix(ValueToSwatch, t4);
    SwatchRoundTrip(r.swatch, t5);
    ExpectPrefix(SwatchToUsage, t6);
    SplitAtBefore(r.usage, '<', t7);
    ExpectPrefix(RowClose, t);
  }

  lemma RowOpensWithTr(r: Row, rest: string)
    ensures Expect(RowMarkup(r, rest), "<tr>").Some?
  {
    var s := RowMarkup(r, rest);
    assert s[..|RowOpen|] == RowOpen;
    assert s[..4] == RowOpen[..4];
  }

  lemma {:induction false} RowsRoundTrip(rows: seq<Row>, t: string)
    requires forall k :: 0 <= k < |rows| ==> PlainRow(rows[k])
    requires Expect(t, "<tr>").None?
    ensures ParseRows(RowsMarkup(rows, t)) == Some((rows, t))
  {
    if rows != [] {
      RowsRoundTrip(rows[1..], t);
      RowsStep(rows[0], rows[1..], t);
      assert [rows[0]] + rows[1..] == rows;
    }
  }

  /** A row in front of rows that read back. */
  lemma RowsStep(r: Row, more: seq<Row>, t: string)
    requires PlainRow(r) && ParseRows(RowsMarkup(more, t)) == Some((more, t))
    ensures ParseRows(RowsMarkup([r] + more, t)) == Some(([r] + more, t))
  {
    assert ([r] + more)[1..] == more;
    RowThenRows(r, RowsMarkup(more, t), more, t);
  }

  lemma RowThenRows(r: Row, rest: string, rows: seq<Row>, t: string)
    requires PlainRow(r) && ParseRows(rest) == Some((rows, t))
    ensures ParseRows(RowMarkup(r, rest)) == Some(([r] + rows, t))
  {
    RowOpensWithTr(r, rest);
    RowRoundTrip(r, rest);
    ParseRowsStep(RowMarkup(r, rest), r, rest, rows, t);
  }

  lemma ParseRowsStep(s: string, r: Row, rest: string, rows: seq<Row>, t: string)
    requires Expect(s, "<tr>").Some? && ParseRow(s) == Some((r, rest)) && ParseRows(rest) == Some((rows, t))
    ensures ParseRows(s) == Some(([r] + rows, t))
  {
  }

  lemma {:induction false} HeaderRoundTrip(cells: seq<string>, t: string)
    requires forall k :: 0 <= k < |cells| ==> PlainText(cells[k])
    requires Expect(t, "<th>").None?
    ensures ParseHeader(HeaderMarkup(cells, t)) == Some((cells, t))
  {
    if cells != [] {
      var rest := HeaderMarkup(cells[1..], t);
      var t1 := "</th>" + rest;
      ExpectPrefix("<th>", cells[0] + t1);
      SplitAtBefore(cells[0], '<', t1);
      ExpectPrefix("</th>", rest);
      HeaderRoundTrip(cells[1..], t);
      assert [cells[0]] + cells[1..] == cells;
    }
  }

  /** Reading the markup of a table gives back its header cells and its rows. */
  lemma TableRoundTrip(tbl: Table)
    requires PlainTable(tbl)
    ensures ParseTable(TableMarkup(tbl)) == Some(tbl)
  {
    var t2 := RowsMarkup(tbl.rows, TableClose);
    var t1 := HeadToBody + t2;
    ExpectPrefix(TableOpen, HeaderMarkup(tbl.header, t1));
    assert t1[1] == '/';
    HeaderRoundTrip(tbl.header, t1);
    ExpectPrefix(HeadToBody, t2);
    assert TableClose[1] == '/';
    RowsRoundTrip(tbl.rows, TableClose);
    ExpectPrefix(TableClose, []);
    assert TableClose + [] == TableClose;
  }

  /** A token whose texts hold no markup characters. */
  predicate PlainToken(t: Token) {
    PlainText(t.name) && PlainValue(t.value) && PlainText(t.usage)
  }

  predicate PlainSection(s: Section) {
    forall k :: 0 <= k < |s.tokens| ==> PlainToken(s.tokens[k])
  }

  lemma PlainTokenTable(s: Section)
    requires PlainSection(s)
    ensures PlainTable(SectionTable(s))
  {
    TokenRowsAt(s.tokens);
    HeaderCellsPlain();
  }

  lemma HeaderCellsPlain()
    ensures forall k :: 0 <= k < |HeaderCells| ==> PlainText(HeaderCells[k])
  {
  }

  /** For a section whose texts hold no markup characters, the markup left once its
      `<h3>` title is cut out reads back as that section's table: the four header cells
      and one row per token, in order. */
  lemma InsertedTableReadsBack(s: Section)
    requires PlainSection(s)
    ensures ParseTable(RemoveFirst(CreateTokenTable(s), TitleMarkup(s.title))) == Some(SectionTable(s))
  {
    StripTitle(s);
    PlainTokenTable(s);
    TableRoundTrip(SectionTable(s));
  }
}
