/** The automation link: the parameters that reproduce the current card in
    headless mode, and how hydrating from them relates to the card they came
    from. */
module HeadlessUrl {
  import opened CardTypes
  import Text
  import Editor
  import Hydration

  /** The kind of an image reference is read off its prefix: remote URLs
      start with `http`; uploads and generated images are `data:` URIs. */
  predicate IsRemoteImage(url: string) {
    Text.StartsWith(url, "http")
  }

  /** The keys every headless link carries. */
  const AlwaysEmitted: set<string> := {"view", "title", "subtitle", "author", "footerText", "style", "ratio"}

  /** The query parameters of the link: `set` replaces, so the seven fixed
      keys form one map; the image is added only when it is a non-empty
      remote URL. */
  function HeadlessParams(card: CardData, style: CardStyle, ratio: AspectRatio): (q: Hydration.Query)
    ensures q.Keys == AlwaysEmitted + (if IsRemoteImage(card.imageUrl) then {"imageUrl"} else {})
    ensures q["view"] == "headless"
    ensures forall f :: FieldName(f) in q && q[FieldName(f)] == GetText(card, f)
    ensures ParseStyle(q["style"]) == Some(style)
    ensures ParseRatio(q["ratio"]) == Some(ratio)
    ensures "imageUrl" in q <==> IsRemoteImage(card.imageUrl)
    ensures "imageUrl" in q ==> q["imageUrl"] == card.imageUrl
  {
    var params: Hydration.Query := map[
      "view" := "headless",
      "title" := card.title,
      "subtitle" := card.subtitle,
      "author" := card.author,
      "footerText" := card.footerText,
      "style" := StyleValue(style),
      "ratio" := RatioValue(ratio)];
    ParseStyleValue(style);
    ParseRatioValue(ratio);
    if card.imageUrl != "" && IsRemoteImage(card.imageUrl) then
      params["imageUrl" := card.imageUrl]
    else
      params
  }

  /** The link for an editor state. */
  function LinkParams(s: Editor.State): Hydration.Query {
    HeadlessParams(s.card, s.style, s.ratio)
  }

  // ---------------------------------------------------------------------
  // Round trip

  /** What hydrating the link of `s` on top of `prior` yields: headless mode,
      the style and ratio of `s`, each text field of `s` that is non-empty,
      and the image of `s` when it is remote; every other field keeps the
      value it had in `prior`. */
  lemma HydrateAfterLink(s: Editor.State, prior: Editor.State)
    ensures var r := Hydration.Hydrate(LinkParams(s), prior);
      && r.headless
      && r.style == s.style
      && r.ratio == s.ratio
      && (forall f :: GetText(r.card, f) ==
            (if GetText(s.card, f) != "" then GetText(s.card, f) else GetText(prior.card, f)))
      && r.card.imageUrl == (if IsRemoteImage(s.card.imageUrl) then s.card.imageUrl else prior.card.imageUrl)
      && r.history == prior.history && r.prompt == prior.prompt && r.error == prior.error
  {
  }

  /** A card whose text fields are all non-empty and whose image is remote
      comes back unchanged, whatever the prior state held. */
  lemma ExactRoundTrip(s: Editor.State, prior: Editor.State)
    requires forall f :: GetText(s.card, f) != ""
    requires IsRemoteImage(s.card.imageUrl)
    ensures var r := Hydration.Hydrate(LinkParams(s), prior);
      r.card == s.card && r.style == s.style && r.ratio == s.ratio && r.headless
  {
    HydrateAfterLink(s, prior);
    var r := Hydration.Hydrate(LinkParams(s), prior);
    CardExtensionality(r.card, s.card);
  }

  /** A card with an embedded image leaves it out of the link, so hydrating
      the link falls back to the prior image. */
  lemma EmbeddedImageFallsBack(s: Editor.State, prior: Editor.State)
    requires Text.StartsWith(s.card.imageUrl, "data:")
    ensures "imageUrl" !in LinkParams(s)
    ensures Hydration.Hydrate(LinkParams(s), prior).card.imageUrl == prior.card.imageUrl
  {
    assert s.card.imageUrl[0] == 'd';
    assert !IsRemoteImage(s.card.imageUrl);
    HydrateAfterLink(s, prior);
  }

  /** Reloading the link of the page's own hydrated state is stable: hydrating
      the link of `Hydrate(link, prior)` on top of `prior` gives the same card. */
  lemma RelinkIsStable(s: Editor.State, prior: Editor.State)
    ensures var r1 := Hydration.Hydrate(LinkParams(s), prior);
      var r2 := Hydration.Hydrate(LinkParams(r1), prior);
      r2.card == r1.card && r2.style == r1.style && r2.ratio == r1.ratio
  {
  }

  /** A generated image never reaches the link. */
  lemma GeneratedImageNotLinked(s: Editor.State, image: string)
    requires !Editor.IsBlankPrompt(s.prompt)
    requires Text.StartsWith(image, "data:")
    ensures "imageUrl" !in LinkParams(Editor.Generate(s, Some(image)).state)
  {
    var g := Editor.Generate(s, Some(image));
    assert g.state.card.imageUrl == image;
    EmbeddedImageFallsBack(g.state, g.state);
  }
}
