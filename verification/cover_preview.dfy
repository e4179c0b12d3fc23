/** Which text the card preview shows: the aspect class of each ratio, the
    background image fallback, the one renderer each style selects, and for
    each renderer the field-or-placeholder choice of every text slot. Layout
    and class strings other than the aspect class are not modelled. */
module CoverPreview {
  import opened CardTypes

  /** Total over the three ratios (the source's `default` branch is unreachable). */
  function AspectClass(r: AspectRatio): string {
    match r
    case Portrait => "aspect-[3/4]"
    case Square => "aspect-square"
    case Story => "aspect-[9/16]"
  }

  lemma AspectClassInjective(a: AspectRatio, b: AspectRatio)
    ensures AspectClass(a) == AspectClass(b) <==> a == b
  {
  }

  const PlaceholderImage: string := "https://picsum.photos/800/1000"

  /** `data.imageUrl || placeholder`. */
  function BackgroundImage(card: CardData): (r: string)
    ensures r != ""
    ensures card.imageUrl != "" ==> r == card.imageUrl
    ensures card.imageUrl == "" ==> r == PlaceholderImage
  {
    if card.imageUrl != "" then card.imageUrl else PlaceholderImage
  }

  /** `field || placeholder` for one text slot. */
  function OrPlaceholder(field: string, placeholder: string): string {
    if field != "" then field else placeholder
  }

  /** The text one renderer puts on the card. `author` is `None` when the
      template has no author slot; `footer` is `None` when the footer element
      is not rendered at all. */
  datatype Rendered = Rendered(
    template: CardStyle,
    image: string,
    title: string,
    subtitle: string,
    author: Option<string>,
    footer: Option<string>)

  function RenderEditorial(card: CardData): Rendered {
    Rendered(Editorial, BackgroundImage(card),
      OrPlaceholder(card.title, "Add a Title Here"),
      OrPlaceholder(card.subtitle, "Add a description or subtitle to provide more context."),
      Some(OrPlaceholder(card.author, "Author")),
      if card.footerText != "" then Some(card.footerText) else None)
  }

  function RenderOverlay(card: CardData): Rendered {
    Rendered(Overlay, BackgroundImage(card),
      OrPlaceholder(card.title, "Impactful Title"),
      OrPlaceholder(card.subtitle, "Your subtitle goes here."),
      Some(OrPlaceholder(card.author, "@username")),
      if card.footerText != "" then Some(card.footerText) else None)
  }

  function RenderMinimal(card: CardData): Rendered {
    Rendered(Minimal, BackgroundImage(card),
      OrPlaceholder(card.title, "Minimal Title"),
      OrPlaceholder(card.subtitle, "A clean description area."),
      Some(OrPlaceholder(card.author, "Creator")),
      Some(OrPlaceholder(card.footerText, "Cover")))
  }

  function RenderGlass(card: CardData): Rendered {
    Rendered(Glass, BackgroundImage(card),
      OrPlaceholder(card.title, "Glassmorphism"),
      OrPlaceholder(card.subtitle, "A modern, frosted glass aesthetic."),
      Some(OrPlaceholder(card.author, "@user")),
      Some(card.footerText))
  }

  function RenderBold(card: CardData): Rendered {
    Rendered(Bold, BackgroundImage(card),
      OrPlaceholder(card.title, "BOLD STATEMENT"),
      OrPlaceholder(card.subtitle, "Neo-brutalist design for high impact visuals."),
      None,
      Some(OrPlaceholder(card.footerText, "Terminal")))
  }

  function RenderZen(card: CardData): Rendered {
    Rendered(Zen, BackgroundImage(card),
      OrPlaceholder(card.title, "The Zen Mode"),
      OrPlaceholder(card.subtitle, "Focus on typography and whitespace."),
      Some(OrPlaceholder(card.author, "Author")),
      Some(OrPlaceholder(card.footerText, "Issue 01")))
  }

  /** The six guarded renderer calls of the preview, in source order: each
      contributes its output when its guard `style === X` holds. */
  function RenderAll(style: CardStyle, card: CardData): (out: seq<Rendered>)
    ensures |out| == 1
    ensures out[0].template == style
  {
    (if style == Editorial then [RenderEditorial(card)] else [])
    + (if style == Overlay then [RenderOverlay(card)] else [])
    + (if style == Minimal then [RenderMinimal(card)] else [])
    + (if style == Glass then [RenderGlass(card)] else [])
    + (if style == Bold then [RenderBold(card)] else [])
    + (if style == Zen then [RenderZen(card)] else [])
  }

  /** The preview frame: the aspect class and the single rendered template. */
  datatype Preview = Preview(aspectClass: string, body: Rendered)

  function Render(card: CardData, ratio: AspectRatio, style: CardStyle): (p: Preview)
    ensures p.aspectClass == AspectClass(ratio)
    ensures p.body.template == style
    ensures p.body.image == BackgroundImage(card)
    // title and subtitle: the field when set, otherwise a non-empty placeholder
    ensures p.body.title != "" && p.body.subtitle != ""
    ensures card.title != "" ==> p.body.title == card.title
    ensures card.subtitle != "" ==> p.body.subtitle == card.subtitle
    // author: absent only in the Bold template, never blank where present
    ensures p.body.author.None? <==> style == Bold
    ensures p.body.author.Some? ==> p.body.author.value != ""
    ensures p.body.author.Some? && card.author != "" ==> p.body.author.value == card.author
    // footer: omitted only by Editorial and Overlay when empty; Glass shows it raw
    ensures p.body.footer.None? <==> (style == Editorial || style == Overlay) && card.footerText == ""
    ensures style == Glass ==> p.body.footer == Some(card.footerText)
    ensures p.body.footer.Some? && style != Glass ==> p.body.footer.value != ""
    ensures p.body.footer.Some? && card.footerText != "" ==> p.body.footer.value == card.footerText
  {
    Preview(AspectClass(ratio), RenderAll(style, card)[0])
  }

  /** With every field empty, every template still shows a title, a subtitle
      and an image, and only Glass can show an empty footer. */
  lemma EmptyCardStillRenders(ratio: AspectRatio, style: CardStyle)
    ensures var p := Render(CardData("", "", "", "", ""), ratio, style);
      && p.body.title != "" && p.body.subtitle != ""
      && p.body.image == PlaceholderImage
      && (p.body.footer == Some("") <==> style == Glass)
  {
  }
}
