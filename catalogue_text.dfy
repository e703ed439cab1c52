/** The catalogue's texts are plain: no token name, value or usage holds a character
    that the table reader could not take literally. Each fact is checked character by
    character on the literal, a few tokens per lemma. */
module CatalogueText {
  import opened Tokens
  import opened Render

  /** A token whose texts avoid, character by character, the characters `PlainToken`
      excludes. */
  lemma TokenPlain(name: string, value: string, usage: string)
    requires forall k :: 0 <= k < |name| ==>
      name[k] != '<' && name[k] != '&' && name[k] != '\r' && name[k] != '\0'
    requires forall k :: 0 <= k < |value| ==>
      value[k] != '<' && value[k] != '&' && value[k] != '\r' && value[k] != '\0'
      && value[k] != ';' && value[k] != '"'
    requires forall k :: 0 <= k < |usage| ==>
      usage[k] != '<' && usage[k] != '&' && usage[k] != '\r' && usage[k] != '\0'
    ensures PlainToken(Token(name, value, usage))
  {
  }

  lemma SurfaceColorsPlain1()
    ensures PlainToken(Token("surface_01", "#FAFAFA", "Primary backgrounds, cards, panels"))
    ensures PlainToken(Token("surface_02", "#EDEDED", "Secondary backgrounds, elevated surfaces"))
    ensures PlainToken(Token("surface_03", "#080808", "High-contrast surfaces, overlays"))
  {
    TokenPlain("surface_01", "#FAFAFA", "Primary backgrounds, cards, panels");
    TokenPlain("surface_02", "#EDEDED", "Secondary backgrounds, elevated surfaces");
    TokenPlain("surface_03", "#080808", "High-contrast surfaces, overlays");
  }

  lemma SurfaceColorsPlain2()
    ensures PlainToken(Token("surface_ai", "#EEE9FF", "AI-powered feature backgrounds"))
    ensures PlainToken(Token("surface_success", "#C4EBD4", "Success state backgrounds"))
    ensures PlainToken(Token("surface_info", "#BADAFA", "Informational backgrounds"))
  {
    TokenPlain("surface_ai", "#EEE9FF", "AI-powered feature backgrounds");
    TokenPlain("surface_success", "#C4EBD4", "Success state backgrounds");
    TokenPlain("surface_info", "#BADAFA", "Informational backgrounds");
  }

  lemma SurfaceColorsPlain3()
    ensures PlainToken(Token("surface_critical", "#FAF5E3", "Warning/caution backgrounds"))
    ensures PlainToken(Token("surface_error", "#FFEBEB", "Error state backgrounds"))
  {
    TokenPlain("surface_critical", "#FAF5E3", "Warning/caution backgrounds");
    TokenPlain("surface_error", "#FFEBEB", "Error state backgrounds");
  }

  /** Every token of the Surface Colors section is plain. */
  lemma SurfaceColorsPlain()
    ensures PlainSection(SurfaceColors)
  {
    SurfaceColorsPlain1(); SurfaceColorsPlain2(); SurfaceColorsPlain3();
  }

  lemma InteractiveColorsPlain1()
    ensures PlainToken(Token("interactive_01", "#1A874F", "Primary buttons, main actions"))
    ensures PlainToken(Token("interactive_pressed", "#0D381F", "Active/pressed state of primary"))
    ensures PlainToken(Token("interactive_02", "#757575", "Secondary buttons, alternative actions"))
  {
    TokenPlain("interactive_01", "#1A874F", "Primary buttons, main actions");
    TokenPlain("interactive_pressed", "#0D381F", "Active/pressed state of primary");
    TokenPlain("interactive_02", "#757575", "Secondary buttons, alternative actions");
  }

  lemma InteractiveColorsPlain2()
    ensures PlainToken(Token("interactive_02_pressed", "#595A5C", "Active/pressed state of secondary"))
    ensures PlainToken(Token("interactive_fill_disabled", "#EDEDED", "Disabled button backgrounds"))
    ensures PlainToken(Token("interactive_text_disabled", "#A1A1A1", "Disabled button text"))
  {
    TokenPlain("interactive_02_pressed", "#595A5C", "Active/pressed state of secondary");
    TokenPlain("interactive_fill_disabled", "#EDEDED", "Disabled button backgrounds");
    TokenPlain("interactive_text_disabled", "#A1A1A1", "Disabled button text");
  }

  lemma InteractiveColorsPlain3()
    ensures PlainToken(Token("interactive_icon", "#757575", "Interactive icons (clickable)"))
    ensures PlainToken(Token("interactive_icon_contrast", "#FAFAFA", "Icons on dark backgrounds"))
    ensures PlainToken(Token("interactive_icon_disabled", "#A1A1A1", "Disabled interactive icons"))
  {
    TokenPlain("interactive_icon", "#757575", "Interactive icons (clickable)");
    TokenPlain("interactive_icon_contrast", "#FAFAFA", "Icons on dark backgrounds");
    TokenPlain("interactive_icon_disabled", "#A1A1A1", "Disabled interactive icons");
  }

  lemma InteractiveColorsPlain4()
    ensures PlainToken(Token("interactive_ai", "#6E54FA", "AI-powered interactive elements"))
    ensures PlainToken(Token("interactive_error", "#BD1C21", "Destructive actions (delete, remove)"))
    ensures PlainToken(Token("interactive_success", "#125930", "Positive actions (save, confirm)"))
  {
    TokenPlain("interactive_ai", "#6E54FA", "AI-powered interactive elements");
    TokenPlain("interactive_error", "#BD1C21", "Destructive actions (delete, remove)");
    TokenPlain("interactive_success", "#125930", "Positive actions (save, confirm)");
  }

  lemma InteractiveColorsPlain5()
    ensures PlainToken(Token("interactive_caution", "#D4A62E", "Caution actions (archive, hide)"))
    ensures PlainToken(Token("interactive_info", "#1F78CC", "Informational actions (learn more, help)"))
  {
    TokenPlain("interactive_caution", "#D4A62E", "Caution actions (archive, hide)");
    TokenPlain("interactive_info", "#1F78CC", "Informational actions (learn more, help)");
  }

  /** Every token of the Interactive Colors section is plain. */
  lemma InteractiveColorsPlain()
    ensures PlainSection(InteractiveColors)
  {
    InteractiveColorsPlain1(); InteractiveColorsPlain2(); InteractiveColorsPlain3(); InteractiveColorsPlain4(); InteractiveColorsPlain5();
  }

  lemma TextColorsPlain1()
    ensures PlainToken(Token("text_01", "#080808", "Primary text, headlines"))
    ensures PlainToken(Token("text_02", "#404042", "Secondary text, body copy"))
    ensures PlainToken(Token("text_03", "#757575", "Tertiary text, metadata, timestamps"))
  {
    TokenPlain("text_01", "#080808", "Primary text, headlines");
    TokenPlain("text_02", "#404042", "Secondary text, body copy");
    TokenPlain("text_03", "#757575", "Tertiary text, metadata, timestamps");
  }

  lemma TextColorsPlain2()
    ensures PlainToken(Token("text_04", "#FAFAFA", "Text on dark backgrounds"))
    ensures PlainToken(Token("text_ai", "#5721F7", "AI-related text content"))
    ensures PlainToken(Token("text_success", "#125930", "Success messages"))
  {
    TokenPlain("text_04", "#FAFAFA", "Text on dark backgrounds");
    TokenPlain("text_ai", "#5721F7", "AI-related text content");
    TokenPlain("text_success", "#125930", "Success messages");
  }

  lemma TextColorsPlain3()
    ensures PlainToken(Token("text_error", "#BD1C21", "Error messages"))
    ensures PlainToken(Token("text_critical", "#CC6215", "Warning text"))
    ensures PlainToken(Token("text_info", "#17598F", "Informational text"))
  {
    TokenPlain("text_error", "#BD1C21", "Error messages");
    TokenPlain("text_critical", "#CC6215", "Warning text");
    TokenPlain("text_info", "#17598F", "Informational text");
  }

  /** Every token of the Text Colors section is plain. */
  lemma TextColorsPlain()
    ensures PlainSection(TextColors)
  {
    TextColorsPlain1(); TextColorsPlain2(); TextColorsPlain3();
  }

  lemma StrokeColorsPlain1()
    ensures PlainToken(Token("stroke_01", "#E8E8E8", "Subtle borders, dividers"))
    ensures PlainToken(Token("stroke_02", "#A1A1A1", "Prominent borders, form fields"))
    ensures PlainToken(Token("stroke_error", "#BD1C21", "Error state borders"))
  {
    TokenPlain("stroke_01", "#E8E8E8", "Subtle borders, dividers");
    TokenPlain("stroke_02", "#A1A1A1", "Prominent borders, form fields");
    TokenPlain("stroke_error", "#BD1C21", "Error state borders");
  }

  lemma StrokeColorsPlain2()
    ensures PlainToken(Token("stroke_success", "#125930", "Success state borders"))
    ensures PlainToken(Token("stroke_info", "#1F78CC", "Info state borders"))
    ensures PlainToken(Token("stroke_caution", "#D4A62E", "Warning state borders"))
  {
    TokenPlain("stroke_success", "#125930", "Success state borders");
    TokenPlain("stroke_info", "#1F78CC", "Info state borders");
    TokenPlain("stroke_caution", "#D4A62E", "Warning state borders");
  }

  lemma StrokeColorsPlain3()
    ensures PlainToken(Token("stroke_ai", "#6E54FA", "AI feature borders"))
  {
    TokenPlain("stroke_ai", "#6E54FA", "AI feature borders");
  }

  /** Every token of the Stroke Colors section is plain. */
  lemma StrokeColorsPlain()
    ensures PlainSection(StrokeColors)
  {
    StrokeColorsPlain1(); StrokeColorsPlain2(); StrokeColorsPlain3();
  }

  lemma IconColorsPlain1()
    ensures PlainToken(Token("icon_01", "#080808", "Primary icons"))
    ensures PlainToken(Token("icon_02", "#404042", "Secondary icons"))
    ensures PlainToken(Token("icon_contrast", "#FAFAFA", "Icons on dark backgrounds"))
  {
    TokenPlain("icon_01", "#080808", "Primary icons");
    TokenPlain("icon_02", "#404042", "Secondary icons");
    TokenPlain("icon_contrast", "#FAFAFA", "Icons on dark backgrounds");
  }

  lemma IconColorsPlain2()
    ensures PlainToken(Token("icon_success", "#125930", "Success state icons"))
    ensures PlainToken(Token("icon_alert", "#CE7E1F", "Warning/alert icons"))
    ensures PlainToken(Token("icon_error", "#BD1C21", "Error state icons"))
  {
    TokenPlain("icon_success", "#125930", "Success state icons");
    TokenPlain("icon_alert", "#CE7E1F", "Warning/alert icons");
    TokenPlain("icon_error", "#BD1C21", "Error state icons");
  }

  lemma IconColorsPlain3()
    ensures PlainToken(Token("icon_info", "#17598F", "Information icons"))
    ensures PlainToken(Token("icon_ai", "#5721F7", "AI-related icons"))
  {
    TokenPlain("icon_info", "#17598F", "Information icons");
    TokenPlain("icon_ai", "#5721F7", "AI-related icons");
  }

  /** Every token of the Icon Colors section is plain. */
  lemma IconColorsPlain()
    ensures PlainSection(IconColors)
  {
    IconColorsPlain1(); IconColorsPlain2(); IconColorsPlain3();
  }

  /** Every section of the catalogue is plain, so the table reader recovers each of
      them. */
  lemma CataloguePlain()
    ensures forall i :: 0 <= i < |SemanticSections| ==> PlainSection(SemanticSections[i])
  {
    SurfaceColorsPlain(); InteractiveColorsPlain(); TextColorsPlain(); StrokeColorsPlain(); IconColorsPlain();
  }
}
