/**
 * The style registry (the `cellStyle` record and the `cellStyles` table of
 * invoice-pdf.go): a constant map from style name to cell appearance.
 */
module CellStyles {
  import opened Wrappers

  /**
   * Library enumerations. `Unset…` stands for the Go zero value, which a
   * struct literal leaves in every field it does not mention.
   */
  datatype HAlign = UnsetAlign | AlignLeft | AlignCenter
  datatype BorderSide = UnsetSide | SideAll
  datatype BorderStyle = UnsetBorderStyle | BorderSingle

  /** A colour, named by the hex code it was parsed from, or the library's white. */
  datatype Color = Hex(code: string) | White

  /** Nil colours are `None`; `borderWidth` and `indent` are float64 in Go but integral here. */
  datatype CellStyle = CellStyle(
    colSpan: int,
    hAlign: HAlign,
    background: Option<Color>,
    borderSide: BorderSide,
    borderStyle: BorderStyle,
    borderWidth: int,
    borderColor: Option<Color>,
    indent: int)

  /** The value a Go map lookup returns for a missing key. */
  const ZeroStyle := CellStyle(0, UnsetAlign, None, UnsetSide, UnsetBorderStyle, 0, None, 0)

  const Dark := Hex("#332f3f")
  const Light := Hex("#dde4e5")

  /** Only the alignment is given. */
  function Plain(a: HAlign): CellStyle {
    ZeroStyle.(hAlign := a)
  }

  /** Filled background, white single border on every side. */
  function Boxed(a: HAlign, bg: Color, width: int): CellStyle {
    CellStyle(0, a, Some(bg), SideAll, BorderSingle, width, Some(White), 0)
  }

  const HeadingLeft := Boxed(AlignLeft, Dark, 6)
  const HeadingCentered := Boxed(AlignCenter, Dark, 6)
  const LeftHighlighted := Boxed(AlignLeft, Light, 6)
  const CenteredHighlighted := Boxed(AlignCenter, Light, 6)
  const LeftPlain := Plain(AlignLeft)
  const CenteredPlain := Plain(AlignCenter)
  const ConductVal := Boxed(AlignCenter, Light, 3)

  const Styles: map<string, CellStyle> := map[
    "heading-left" := HeadingLeft,
    "heading-centered" := HeadingCentered,
    "left-highlighted" := LeftHighlighted,
    "centered-highlighted" := CenteredHighlighted,
    "left" := LeftPlain,
    "centered" := CenteredPlain,
    "gradingsys-head" := Plain(AlignLeft),
    "gradingsys-row" := Plain(AlignCenter),
    "conduct-head" := Plain(AlignLeft),
    "conduct-key" := Plain(AlignLeft),
    "conduct-val" := ConductVal
  ]

  /** What the composer's lookups return, for a registry `styles`. */
  predicate ResolvesComposerNames(styles: map<string, CellStyle>) {
    && "heading-left" in styles && styles["heading-left"] == HeadingLeft
    && "heading-centered" in styles && styles["heading-centered"] == HeadingCentered
    && "left-highlighted" in styles && styles["left-highlighted"] == LeftHighlighted
    && "centered-highlighted" in styles && styles["centered-highlighted"] == CenteredHighlighted
    && "left" in styles && styles["left"] == LeftPlain
    && "centered" in styles && styles["centered"] == CenteredPlain
    && "conduct-key" in styles && styles["conduct-key"] == LeftPlain
    && "conduct-val" in styles && styles["conduct-val"] == ConductVal
  }

  /** Every name the composer looks up is registered, with the style the document uses. */
  lemma ComposerLookups()
    ensures ResolvesComposerNames(Styles)
  {
  }

  /** The names the composer looks up. */
  const ComposerStyleNames: set<string> := {
    "centered", "left", "heading-left", "heading-centered",
    "left-highlighted", "centered-highlighted", "conduct-key", "conduct-val"
  }

  /** Lookup that fails on an unknown name instead of defaulting. */
  function Resolve(name: string): (r: Option<CellStyle>)
    ensures r.Some? <==> name in Styles
    ensures r.Some? ==> r.value == Styles[name]
  {
    if name in Styles then Some(Styles[name]) else None
  }

  /** Go's `cellStyles[name]`: a missing name silently yields the zero style. */
  function GoLookup(name: string): (r: CellStyle)
    ensures name in Styles ==> r == Styles[name]
    ensures name !in Styles ==> r == ZeroStyle
  {
    if name in Styles then Styles[name] else ZeroStyle
  }

  /** A registry that resolves the composer's lookups holds every name of `ComposerStyleNames`. */
  lemma ComposerNamesResolved(styles: map<string, CellStyle>)
    requires ResolvesComposerNames(styles)
    ensures forall name :: name in ComposerStyleNames ==> name in styles
  {
  }

  /** Conversely, `ResolvesComposerNames` looks at no name outside `ComposerStyleNames`. */
  lemma ComposerNamesOnly(a: map<string, CellStyle>, b: map<string, CellStyle>)
    requires forall name :: name in ComposerStyleNames ==> (name in a <==> name in b)
    requires forall name :: name in ComposerStyleNames && name in a ==> a[name] == b[name]
    ensures ResolvesComposerNames(a) <==> ResolvesComposerNames(b)
  {
  }

  /** Every name the composer uses is in the registry, so Go's silent default never applies. */
  lemma ComposerNamesRegistered()
    ensures forall name :: name in ComposerStyleNames ==> name in Styles
    ensures forall name :: name in ComposerStyleNames ==> GoLookup(name) == Resolve(name).value
  {
    ComposerLookups();
    ComposerNamesResolved(Styles);
  }

  /** An unknown name is refused by Resolve, while Go's lookup hands back the zero style. */
  lemma UnknownStyleRefused()
    ensures Resolve("nonexistent") == None
    ensures GoLookup("nonexistent") == ZeroStyle
  {
    assert "nonexistent" !in Styles;
  }

  /** No registered style spans several columns or carries an indent. */
  lemma NoSpanNoIndent(name: string)
    requires name in Styles
    ensures Styles[name].colSpan <= 1 && Styles[name].indent <= 0
  {
  }

  /** Heading and highlighted styles: full single white border of width 6 on a filled background. */
  lemma BoxedStyles(name: string)
    requires name in {"heading-left", "heading-centered", "left-highlighted", "centered-highlighted"}
    ensures var s := Styles[name];
      s.borderSide == SideAll && s.borderStyle == BorderSingle && s.borderWidth == 6
      && s.borderColor == Some(White) && s.background.Some?
    ensures name in {"heading-left", "heading-centered"} ==> Styles[name].background == Some(Dark)
    ensures name in {"left-highlighted", "centered-highlighted"} ==> Styles[name].background == Some(Light)
  {
  }

  /** The total-value style is boxed like the highlighted ones, with width 3. */
  lemma ConductValStyle()
    ensures Styles["conduct-val"] == CellStyle(0, AlignCenter, Some(Light), SideAll, BorderSingle, 3, Some(White), 0)
  {
  }

  /** Plain styles carry only their alignment. */
  lemma PlainStyles(name: string)
    requires name in {"left", "centered", "gradingsys-head", "gradingsys-row", "conduct-head", "conduct-key"}
    ensures Styles[name] == ZeroStyle.(hAlign := Styles[name].hAlign)
    ensures Styles[name].hAlign != UnsetAlign
  {
  }
}
