/** The startup effect that hydrates the editor from the page's query string.
    The query string is a map from parameter name to value: setting a
    parameter replaces it, so each name occurs at most once. */
module Hydration {
  import opened CardTypes
  import Editor

  type Query = map<string, string>

  /** `params.get(key) || prior`: an absent or empty parameter yields the prior value. */
  function ParamOr(q: Query, key: string, prior: string): string {
    if key in q && q[key] != "" then q[key] else prior
  }

  /** The headless sentinel `view=headless`. */
  predicate HeadlessRequested(q: Query) {
    "view" in q && q["view"] == "headless"
  }

  /** The URL carries a configuration when it has a `title` or a `style`. */
  predicate CarriesConfig(q: Query) {
    "title" in q || "style" in q
  }

  /** The style after hydration: the parameter when it names a style, else the prior one. */
  function HydrateStyle(q: Query, prior: CardStyle): (r: CardStyle)
    ensures r != prior ==> "style" in q && StyleValue(r) == q["style"]
    ensures "style" in q && q["style"] in StyleValues ==> StyleValue(r) == q["style"]
    ensures "style" !in q || q["style"] !in StyleValues ==> r == prior
  {
    if "style" in q then
      match ParseStyle(q["style"])
      case Some(v) => v
      case None => prior
    else prior
  }

  function HydrateRatio(q: Query, prior: AspectRatio): (r: AspectRatio)
    ensures r != prior ==> "ratio" in q && RatioValue(r) == q["ratio"]
    ensures "ratio" in q && q["ratio"] in RatioValues ==> RatioValue(r) == q["ratio"]
    ensures "ratio" !in q || q["ratio"] !in RatioValues ==> r == prior
  {
    if "ratio" in q then
      match ParseRatio(q["ratio"])
      case Some(v) => v
      case None => prior
    else prior
  }

  /** Applies the query string to a state. Only the card, the style, the ratio
      and the headless flag can change; the flag is only ever switched on. */
  function Hydrate(q: Query, s: Editor.State): (r: Editor.State)
    ensures r.headless <==> s.headless || HeadlessRequested(q)
    ensures r.(card := s.card, style := s.style, ratio := s.ratio, headless := s.headless) == s
    ensures !CarriesConfig(q) ==> r.card == s.card && r.style == s.style && r.ratio == s.ratio
    ensures forall f :: GetText(r.card, f) == GetText(s.card, f)
                     || (FieldName(f) in q && GetText(r.card, f) == q[FieldName(f)] != "")
    ensures r.card.imageUrl == s.card.imageUrl
         || ("imageUrl" in q && r.card.imageUrl == q["imageUrl"] != "")
    // style and ratio change only to the member a valid parameter names
    ensures r.style != s.style ==> "style" in q && StyleValue(r.style) == q["style"]
    ensures r.ratio != s.ratio ==> CarriesConfig(q) && "ratio" in q && RatioValue(r.ratio) == q["ratio"]
    ensures "style" in q && q["style"] in StyleValues ==> StyleValue(r.style) == q["style"]
    ensures CarriesConfig(q) && "ratio" in q && q["ratio"] in RatioValues ==> RatioValue(r.ratio) == q["ratio"]
  {
    var headless := s.headless || HeadlessRequested(q);
    if CarriesConfig(q) then
      var card := s.card.(
        title := ParamOr(q, "title", s.card.title),
        subtitle := ParamOr(q, "subtitle", s.card.subtitle),
        author := ParamOr(q, "author", s.card.author),
        footerText := ParamOr(q, "footerText", s.card.footerText),
        imageUrl := ParamOr(q, "imageUrl", s.card.imageUrl));
      s.(headless := headless, card := card,
         style := HydrateStyle(q, s.style), ratio := HydrateRatio(q, s.ratio))
    else
      s.(headless := headless)
  }

  /** The state the page shows after loading with query string `q`. */
  function Startup(q: Query): Editor.State {
    Hydrate(q, Editor.Initial)
  }

  // ---------------------------------------------------------------------
  // Properties of hydration

  /** Headless mode is on exactly when `view` is `headless`, whatever else the URL holds. */
  lemma HeadlessIffView(q: Query)
    ensures Startup(q).headless <==> "view" in q && q["view"] == "headless"
  {
  }

  lemma HeadlessIndependentOfOtherParams(q1: Query, q2: Query)
    requires ("view" in q1) == ("view" in q2)
    requires "view" in q1 ==> q1["view"] == q2["view"]
    ensures Startup(q1).headless == Startup(q2).headless
  {
  }

  /** Without `title` and `style` the defaults stay, even when `ratio` is given. */
  lemma NoConfigKeepsDefaults(q: Query)
    requires "title" !in q && "style" !in q
    ensures Startup(q).card == Editor.DefaultCard
    ensures Startup(q).style == Editorial
    ensures Startup(q).ratio == Portrait
  {
  }

  /** A text field takes the parameter exactly when the URL carries a
      configuration and the parameter is present and non-empty. */
  lemma TextFieldHydration(q: Query, s: Editor.State, f: TextField)
    ensures CarriesConfig(q) && FieldName(f) in q && q[FieldName(f)] != "" ==>
      GetText(Hydrate(q, s).card, f) == q[FieldName(f)]
    ensures !(CarriesConfig(q) && FieldName(f) in q && q[FieldName(f)] != "") ==>
      GetText(Hydrate(q, s).card, f) == GetText(s.card, f)
  {
  }

  lemma ImageUrlHydration(q: Query, s: Editor.State)
    ensures CarriesConfig(q) && "imageUrl" in q && q["imageUrl"] != "" ==>
      Hydrate(q, s).card.imageUrl == q["imageUrl"]
    ensures !(CarriesConfig(q) && "imageUrl" in q && q["imageUrl"] != "") ==>
      Hydrate(q, s).card.imageUrl == s.card.imageUrl
  {
  }

  /** An invalid `style` or `ratio` value is ignored. */
  lemma InvalidEnumKeepsPrior(q: Query, s: Editor.State)
    ensures "style" in q && q["style"] !in StyleValues ==> Hydrate(q, s).style == s.style
    ensures "ratio" in q && q["ratio"] !in RatioValues ==> Hydrate(q, s).ratio == s.ratio
  {
  }

  /** A valid `style` (or `ratio`, once the URL carries a configuration) is taken. */
  lemma ValidEnumTaken(q: Query, s: Editor.State)
    ensures "style" in q && q["style"] in StyleValues ==> StyleValue(Hydrate(q, s).style) == q["style"]
    ensures CarriesConfig(q) && "ratio" in q && q["ratio"] in RatioValues ==>
      RatioValue(Hydrate(q, s).ratio) == q["ratio"]
  {
  }
}
