/** The static design-token catalogue: five semantic sections of named colour tokens,
    in the order the page lists them. */
module Tokens {

  /** One design token: its name, its hex colour value and a free-text usage note. */
  datatype Token = Token(name: string, value: string, usage: string)

  /** A titled, ordered group of tokens. */
  datatype Section = Section(title: string, tokens: seq<Token>)

  const SurfaceColors := Section("Surface Colors", [
    Token("surface_01", "#FAFAFA", "Primary backgrounds, cards, panels"),
    Token("surface_02", "#EDEDED", "Secondary backgrounds, elevated surfaces"),
    Token("surface_03", "#080808", "High-contrast surfaces, overlays"),
    Token("surface_ai", "#EEE9FF", "AI-powered feature backgrounds"),
    Token("surface_success", "#C4EBD4", "Success state backgrounds"),
    Token("surface_info", "#BADAFA", "Informational backgrounds"),
    Token("surface_critical", "#FAF5E3", "Warning/caution backgrounds"),
    Token("surface_error", "#FFEBEB", "Error state backgrounds")
  ])

  const InteractiveColors := Section("Interactive Colors", [
    Token("interactive_01", "#1A874F", "Primary buttons, main actions"),
    Token("interactive_pressed", "#0D381F", "Active/pressed state of primary"),
    Token("interactive_02", "#757575", "Secondary buttons, alternative actions"),
    Token("interactive_02_pressed", "#595A5C", "Active/pressed state of secondary"),
    Token("interactive_fill_disabled", "#EDEDED", "Disabled button backgrounds"),
    Token("interactive_text_disabled", "#A1A1A1", "Disabled button text"),
    Token("interactive_icon", "#757575", "Interactive icons (clickable)"),
    Token("interactive_icon_contrast", "#FAFAFA", "Icons on dark backgrounds"),
    Token("interactive_icon_disabled", "#A1A1A1", "Disabled interactive icons"),
    Token("interactive_ai", "#6E54FA", "AI-powered interactive elements"),
    Token("interactive_error", "#BD1C21", "Destructive actions (delete, remove)"),
    Token("interactive_success", "#125930", "Positive actions (save, confirm)"),
    Token("interactive_caution", "#D4A62E", "Caution actions (archive, hide)"),
    Token("interactive_info", "#1F78CC", "Informational actions (learn more, help)")
  ])

  const TextColors := Section("Text Colors", [
    Token("text_01", "#080808", "Primary text, headlines"),
    Token("text_02", "#404042", "Secondary text, body copy"),
    Token("text_03", "#757575", "Tertiary text, metadata, timestamps"),
    Token("text_04", "#FAFAFA", "Text on dark backgrounds"),
    Token("text_ai", "#5721F7", "AI-related text content"),
    Token("text_success", "#125930", "Success messages"),
    Token("text_error", "#BD1C21", "Error messages"),
    Token("text_critical", "#CC6215", "Warning text"),
    Token("text_info", "#17598F", "Informational text")
  ])

  const StrokeColors := Section("Stroke Colors", [
    Token("stroke_01", "#E8E8E8", "Subtle borders, dividers"),
    Token("stroke_02", "#A1A1A1", "Prominent borders, form fields"),
    Token("stroke_error", "#BD1C21", "Error state borders"),
    Token("stroke_success", "#125930", "Success state borders"),
    Token("stroke_info", "#1F78CC", "Info state borders"),
    Token("stroke_caution", "#D4A62E", "Warning state borders"),
    Token("stroke_ai", "#6E54FA", "AI feature borders")
  ])

  const IconColors := Section("Icon Colors", [
    Token("icon_01", "#080808", "Primary icons"),
    Token("icon_02", "#404042", "Secondary icons"),
    Token("icon_contrast", "#FAFAFA", "Icons on dark backgrounds"),
    Token("icon_success", "#125930", "Success state icons"),
    Token("icon_alert", "#CE7E1F", "Warning/alert icons"),
    Token("icon_error", "#BD1C21", "Error state icons"),
    Token("icon_info", "#17598F", "Information icons"),
    Token("icon_ai", "#5721F7", "AI-related icons")
  ])

  /** The catalogue, in page order. */
  const SemanticSections: seq<Section> :=
    [SurfaceColors, InteractiveColors, TextColors, StrokeColors, IconColors]

  /** Five sections holding 8, 14, 9, 7 and 8 tokens. */
  lemma CatalogueShape()
    ensures |SemanticSections| == 5
    ensures SemanticSections[0].title == "Surface Colors" && |SemanticSections[0].tokens| == 8
    ensures SemanticSections[1].title == "Interactive Colors" && |SemanticSections[1].tokens| == 14
    ensures SemanticSections[2].title == "Text Colors" && |SemanticSections[2].tokens| == 9
    ensures SemanticSections[3].title == "Stroke Colors" && |SemanticSections[3].tokens| == 7
    ensures SemanticSections[4].title == "Icon Colors" && |SemanticSections[4].tokens| == 8
  {
  }

  /** No two sections share a title, so a title identifies its section. */
  lemma TitlesDistinct()
    ensures forall i, j :: 0 <= i < j < |SemanticSections| ==> SemanticSections[i].title != SemanticSections[j].title
  {
    assert SurfaceColors.title[0] == 'S' && StrokeColors.title[0] == 'S' && SurfaceColors.title[1] != StrokeColors.title[1];
    assert InteractiveColors.title[0] == 'I' && IconColors.title[0] == 'I' && InteractiveColors.title[1] != IconColors.title[1];
  }
}
