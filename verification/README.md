# Social media card editor — configuration, headless link and preview model

A Dafny model of the state core of a browser card editor. The user edits the
title, subtitle, author and footer of a card, picks a background image
(generated or uploaded), one of six templates and one of three aspect ratios.
The editor can also be driven from the query string: a "headless" link holds
the whole configuration, so that a screenshot script can reproduce a card.

Modules, in the program's own terms:

- `CardTypes` (types.ts): the closed enumerations `AspectRatio` (`3:4`, `1:1`,
  `9:16`) and `CardStyle` (`editorial`, `overlay`, `minimal`, `glass`, `bold`,
  `zen`). Each has its string values, a parse function that returns `None` for
  any other string, and the five-field `CardData` record.
- `Text`: the `startsWith` test and the ECMAScript `trim` that the prompt
  guard uses.
- `Editor` (App.tsx): the session state and its defaults, plus the handlers:
  text input change, upload completion, AI generation with the blank-prompt
  guard, and the generation history (select and delete by position).
- `Hydration` (App.tsx startup effect): decoding a query string, modelled as
  `map<string, string>`, into the state.
- `HeadlessUrl` (ApiDialog.tsx `getHeadlessUrl`): encoding the state as
  query parameters, and the round-trip lemmas that relate encode to decode.
- `CoverPreview` (components/CoverPreview.tsx): the aspect class, the
  background fallback, the single renderer each style selects, and the text
  each template shows.

Three details of the code decide what the model states:

- Decoding uses `params.get(k) || prior`, so a parameter that is present but
  empty keeps the prior value. The round trip therefore restores a text
  field only when it was non-empty.
- `ratio` is read only when `title` or `style` is present.
- The headless flag is only ever switched on (`Hydrate` keeps a prior `true`).
  At startup the prior value is `false`, so the flag is true exactly when
  `view=headless`.

## Model

| member | source | states |
|---|---|---|
| CardTypes.RatioMembers | types.ts:1-5 | AspectRatio has exactly three members; their string values are pairwise distinct and make up the three-element set `{3:4, 1:1, 9:16}` |
| CardTypes.RatioValueInjective | types.ts:1-5 | two ratios have the same string value only if they are the same member |
| CardTypes.ParseRatio | types.ts:1-5 | parsing succeeds exactly on the three declared values, and a parsed member's value is the input string, so no new variant can arise |
| CardTypes.ParseRatioValue | types.ts:1-5 | parsing a member's string value returns that member |
| CardTypes.StyleMembers | types.ts:7-14 | CardStyle has exactly six members with pairwise distinct values editorial/overlay/minimal/glass/bold/zen |
| CardTypes.StyleValueInjective | types.ts:7-14 | the style-to-string mapping is injective |
| CardTypes.ParseStyle | types.ts:7-14 | parsing succeeds exactly on the six declared values and returns the member carrying that value; every other string gives None |
| CardTypes.ParseStyleValue | types.ts:7-14 | parsing a style's string value returns that style |
| CardTypes.CardExtensionality | types.ts:16-22 | a card is nothing but its image and its four text fields: cards that agree on these are equal |
| CardTypes.WithText | App.tsx:74-77 | overwriting one named field sets it and keeps the other three text fields and the image |
| CardTypes.FieldNamesDistinct | App.tsx:204-242 | the four input names (which double as query keys) are distinct, so a change event names exactly one field |
| Text.SkipLeading | App.tsx:93 | the start of the trimmed slice: every character before it is whitespace and the character at it (if any) is not |
| Text.SkipTrailing | App.tsx:93 | the end of the trimmed slice: every character from it on is whitespace and the character before it (if inside the slice) is not |
| Text.Trim | App.tsx:93 | `trim` yields a contiguous slice with no whitespace at either end, and everything it drops is whitespace |
| Text.TrimEmptyIffAllTrimmable | App.tsx:93 | the trimmed prompt is empty exactly when every character of it is whitespace |
| Editor.InputChange | App.tsx:74-77 | an input change overwrites exactly the named text field; the image, style, ratio, history and every other part of the state are unchanged |
| Editor.ImageUploaded | App.tsx:83-86 | a finished upload sets the image to the data read and changes nothing else |
| Editor.BlankPromptIffAllWhitespace | App.tsx:93 | the prompt is rejected as blank exactly when every character of it is whitespace |
| Editor.Generate | App.tsx:92-111 | the image service is called iff the trimmed prompt is non-empty. A blank prompt only sets "Please enter a prompt first.". A failure only sets "Failed to generate image. Please try again.". Success prepends the image to the history, selects it, clears the error and changes nothing else |
| Editor.BlankPromptLeavesCardAndHistory | App.tsx:93-96 | an all-whitespace prompt never reaches the service and leaves card and history untouched, with the prompt error set |
| Editor.SelectHistoryImage | App.tsx:113-115 | selecting sets only the card image; the history list and all other fields stay as they were |
| Editor.FilterOutIndex | App.tsx:119 | filtering out position i equals removing element i when i is in range, and is the identity otherwise |
| Editor.DeleteHistoryImage | App.tsx:117-120 | deleting removes exactly the entry at i (no-op out of range) and never changes the card, even when its image is the removed entry |
| Editor.DeleteRemovesOneOccurrence | App.tsx:117-120 | an in-range delete shortens the history by one and removes exactly one occurrence of the deleted image |
| Editor.GenerateThenSelect | App.tsx:102-115 | after a successful generation and selecting that image, it is both the card image and the head of the history |
| Editor.GenerateTwice | App.tsx:102 | two successful generations a then b give history `[b, a]` followed by the older entries |
| Editor.DeleteSelectedKeepsSelection | App.tsx:102-120 | generating a then b (b not already in the history) and deleting entry 0 leaves b on the card although the history, now `[a]` followed by the older entries, no longer holds it |
| Hydration.HydrateStyle | App.tsx:56-61 | the style changes only to a member whose value is the `style` parameter; a valid parameter is always taken, an absent or invalid one keeps the prior style |
| Hydration.HydrateRatio | App.tsx:63-68 | the same closed-enumeration rule for `ratio` |
| Hydration.Hydrate | App.tsx:37-70 | headless becomes true iff it was already or `view` is `headless`. Only card, style, ratio and headless can change. Without `title` and `style` the card, style and ratio are kept. Each text field and the image either keeps its prior value or takes a present, non-empty parameter. Style changes only to the member a valid `style` parameter names, and ratio only to the member a valid `ratio` parameter names when `title` or `style` is present; such valid parameters are always adopted |
| Hydration.HeadlessIffView | App.tsx:41-43 | at startup the headless flag is true exactly when `view` equals `headless` |
| Hydration.HeadlessIndependentOfOtherParams | App.tsx:41-43 | two query strings that agree on `view` give the same headless flag, whatever else they hold |
| Hydration.NoConfigKeepsDefaults | App.tsx:10-69 | without `title` and `style` the startup card, style and ratio are the built-in defaults, even when `ratio` is given |
| Hydration.TextFieldHydration | App.tsx:46-53 | a text field takes its parameter iff the URL carries a configuration and the parameter is present and non-empty; otherwise it keeps the prior value |
| Hydration.ImageUrlHydration | App.tsx:46-53 | the same rule for `imageUrl` |
| Hydration.InvalidEnumKeepsPrior | App.tsx:56-68 | an invalid `style` or `ratio` value leaves the prior style or ratio unchanged |
| Hydration.ValidEnumTaken | App.tsx:56-68 | a valid `style`, or a valid `ratio` in a URL that carries a configuration, is adopted |
| HeadlessUrl.HeadlessParams | components/ApiDialog.tsx:19-35 | the link holds `view=headless`, the four text fields verbatim (empty ones too), the style and ratio values, and `imageUrl` iff the image starts with `http`, in which case it holds the image verbatim. There are no other keys |
| HeadlessUrl.HydrateAfterLink | components/ApiDialog.tsx:19-35 | hydrating the link of s over a prior state gives: headless on, s's style and ratio, each non-empty text field of s, and s's image when it is remote. Every other field keeps the prior value |
| HeadlessUrl.ExactRoundTrip | components/ApiDialog.tsx:19-35 | a card with non-empty text and a remote image is restored exactly, with its style and ratio, whatever the prior state |
| HeadlessUrl.EmbeddedImageFallsBack | components/ApiDialog.tsx:29-32 | a `data:` image is not put in the link and hydration falls back to the prior image |
| HeadlessUrl.RelinkIsStable | components/ApiDialog.tsx:19-35 | the link of a hydrated state hydrates back to the same card, style and ratio |
| HeadlessUrl.GeneratedImageNotLinked | components/ApiDialog.tsx:29-32 | a freshly generated `data:` image is never emitted into the link |
| CoverPreview.AspectClassInjective | components/CoverPreview.tsx:15-22 | the aspect class mapping is total and distinct ratios get distinct classes |
| CoverPreview.BackgroundImage | components/CoverPreview.tsx:25 | the background is the card image when set, else the picsum placeholder; it is never empty |
| CoverPreview.RenderAll | components/CoverPreview.tsx:221-226 | of the six guarded renderer calls exactly one produces output, and it is the renderer of the selected style |
| CoverPreview.Render | components/CoverPreview.tsx:29-226 | title and subtitle are never empty and show the field when it is set. Author is absent only in Bold and never blank where present. The footer is omitted only by Editorial and Overlay when empty; Glass shows it raw, and the others show it or a non-empty placeholder |
| CoverPreview.EmptyCardStillRenders | components/CoverPreview.tsx:29-213 | an all-empty card renders a title, a subtitle and the placeholder image in every template; only Glass shows an empty footer |

## Left out

- PNG export (`toPng`, link creation, timestamped file name): a DOM and a third-party library; there is nothing to state without them.
- The `FileReader` read in the upload handler: browser I/O. Only its effect is modelled (`Editor.ImageUploaded` takes the data URL as a parameter).
- The image generation service (services/geminiService.ts): a network client. Its answer is the parameter `reply` of `Editor.Generate` (`None` when it throws).
- The busy flags `isGenerating` / `isDownloading`, awaiting, and batching of React state updates: event-loop concerns.
- Percent-encoding and serialisation of the query string, and `window.location.origin`: library behaviour. The query string is a map from key to value.
- Repeated query keys: `URLSearchParams.get` returns the first value. A map holds one value per key, which is all the encoder produces.
- The Puppeteer script template, clipboard and timer in the link dialog: generated code text and browser side effects.
- JSX layout and all class strings except the aspect class; the editor form widgets.
- The author initial in the Editorial template (`author[0].toUpperCase()`): depends on Unicode case mapping.
- Text.Trim: the whitespace set is the ECMAScript WhiteSpace and LineTerminator code points, with the space separators of a fixed Unicode version; later Unicode additions to category Zs are not included.
- CardTypes.WithText: input names are the closed set of the four text inputs. A change event with any other name would add a new property in the source, but the form has no such input.
