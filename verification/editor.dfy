/** The editor's session state and the handlers that change it: text edits,
    image upload, AI generation with its prompt guard, and the generation
    history (prepend on success, select, delete by position). */
module Editor {
  import opened CardTypes
  import Text

  /** Everything the handlers read or write. The busy flags of the two
      asynchronous operations are not part of it. */
  datatype State = State(
    card: CardData,
    style: CardStyle,
    ratio: AspectRatio,
    prompt: string,
    history: seq<string>,
    error: Option<string>,
    headless: bool)

  const DefaultCard: CardData := CardData(
    "Claude Code",
    "Zero to Hero: 5 Minute Guide to AI Programming",
    "Tutorial",
    "@AIProductFree",
    "")

  const DefaultPrompt: string :=
    "A futuristic 3D robot mascot, cute, orange and blue colors, studio lighting, clean background, high detail render"

  /** The state every session starts from. */
  const Initial: State := State(DefaultCard, Editorial, Portrait, DefaultPrompt, [], None, false)

  const PromptMissing: string := "Please enter a prompt first."
  const GenerationFailed: string := "Failed to generate image. Please try again."

  // ---------------------------------------------------------------------
  // Field edits and upload

  /** A change event on one of the four text inputs: the field named by the
      input takes the new value and nothing else changes. */
  function InputChange(s: State, f: TextField, value: string): (r: State)
    ensures GetText(r.card, f) == value
    ensures forall g :: g != f ==> GetText(r.card, g) == GetText(s.card, g)
    ensures r.card.imageUrl == s.card.imageUrl
    ensures r.(card := s.card) == s
  {
    s.(card := WithText(s.card, f, value))
  }

  /** Completion of a file read: the data URL read from the file becomes the
      card image. */
  function ImageUploaded(s: State, dataUrl: string): (r: State)
    ensures r.card.imageUrl == dataUrl
    ensures forall f :: GetText(r.card, f) == GetText(s.card, f)
    ensures r.(card := s.card) == s
  {
    s.(card := s.card.(imageUrl := dataUrl))
  }

  // ---------------------------------------------------------------------
  // Generation

  /** A prompt that trims to nothing. */
  predicate IsBlankPrompt(p: string) {
    Text.Trim(p) == []
  }

  /** The prompt is blank exactly when it has no non-whitespace character. */
  lemma BlankPromptIffAllWhitespace(p: string)
    ensures IsBlankPrompt(p) <==> Text.AllTrimmable(p)
  {
  }

  /** The state after a generation attempt, and whether the image service was asked. */
  datatype Generation = Generation(state: State, serviceCalled: bool)

  /** The generate button. `reply` stands for the image service's answer to the
      prompt: `Some(image)` when it resolved with an image, `None` when it threw.
      A blank prompt is rejected before the service is reached. */
  function Generate(s: State, reply: Option<string>): (g: Generation)
    ensures g.serviceCalled <==> !IsBlankPrompt(s.prompt)
    ensures !g.serviceCalled ==> g.state == s.(error := Some(PromptMissing))
    ensures g.serviceCalled && reply.None? ==> g.state == s.(error := Some(GenerationFailed))
    ensures g.serviceCalled && reply.Some? ==>
      && g.state.history == [reply.value] + s.history
      && g.state.card == s.card.(imageUrl := reply.value)
      && g.state.error == None
      && g.state.(history := s.history, card := s.card, error := s.error) == s
  {
    if IsBlankPrompt(s.prompt) then
      Generation(s.(error := Some(PromptMissing)), false)
    else
      match reply
      case Some(image) =>
        var cleared := s.(error := None);
        Generation(cleared.(history := [image] + cleared.history, card := cleared.card.(imageUrl := image)), true)
      case None =>
        Generation(s.(error := Some(GenerationFailed)), true)
  }

  /** A blank prompt never touches the card or the history. */
  lemma BlankPromptLeavesCardAndHistory(s: State, reply: Option<string>)
    requires Text.AllTrimmable(s.prompt)
    ensures !Generate(s, reply).serviceCalled
    ensures Generate(s, reply).state.card == s.card
    ensures Generate(s, reply).state.history == s.history
    ensures Generate(s, reply).state.error == Some(PromptMissing)
  {
  }

  // ---------------------------------------------------------------------
  // History

  /** Clicking a history thumbnail: the image becomes the card image; the list
      is left alone. */
  function SelectHistoryImage(s: State, image: string): (r: State)
    ensures r.card.imageUrl == image
    ensures r.history == s.history
    ensures r.(card := s.card) == s && r.card.(imageUrl := s.card.imageUrl) == s.card
  {
    s.(card := s.card.(imageUrl := image))
  }

  /** `filter((_, index) => index !== i)`: keeps every element whose position
      differs from `i`, positions counted from the front of `h`. */
  function FilterOutIndex(h: seq<string>, i: int): (r: seq<string>)
    ensures 0 <= i < |h| ==> r == h[..i] + h[i + 1..]
    ensures !(0 <= i < |h|) ==> r == h
    decreases |h|
  {
    if h == [] then []
    else
      var last := |h| - 1;
      FilterOutIndex(h[..last], i) + (if last != i then [h[last]] else [])
  }

  /** The delete button on history entry `i`: removes that entry; the card
      image is not touched even when it shows the removed entry. */
  function DeleteHistoryImage(s: State, i: int): (r: State)
    ensures 0 <= i < |s.history| ==> r.history == s.history[..i] + s.history[i + 1..]
    ensures !(0 <= i < |s.history|) ==> r == s
    ensures r.(history := s.history) == s
  {
    s.(history := FilterOutIndex(s.history, i))
  }

  /** Deleting an entry in range removes exactly one occurrence of it. */
  lemma DeleteRemovesOneOccurrence(s: State, i: int)
    requires 0 <= i < |s.history|
    ensures var r := DeleteHistoryImage(s, i);
      && |r.history| == |s.history| - 1
      && multiset(r.history) == multiset(s.history) - multiset{s.history[i]}
  {
    assert s.history == s.history[..i] + [s.history[i]] + s.history[i + 1..];
  }

  // ---------------------------------------------------------------------
  // Scenarios over several handlers

  /** A successful generation followed by selecting the same image. */
  lemma GenerateThenSelect(s: State, image: string)
    requires !IsBlankPrompt(s.prompt)
    ensures var r := SelectHistoryImage(Generate(s, Some(image)).state, image);
      r.card.imageUrl == image && r.history[0] == image
  {
  }

  /** Two successful generations leave the newer image first. */
  lemma GenerateTwice(s: State, a: string, b: string)
    requires !IsBlankPrompt(s.prompt)
    ensures var s1 := Generate(s, Some(a)).state;
      Generate(s1, Some(b)).state.history == [b, a] + s.history
  {
  }

  /** Deleting the entry that is currently shown keeps it on the card, even
      though the history no longer holds it. */
  lemma DeleteSelectedKeepsSelection(s: State, a: string, b: string)
    requires !IsBlankPrompt(s.prompt)
    requires a != b && b !in s.history
    ensures var s2 := Generate(Generate(s, Some(a)).state, Some(b)).state;
      var s3 := DeleteHistoryImage(s2, 0);
      && s3.card.imageUrl == b
      && s3.history == [a] + s.history
      && b !in s3.history
  {
  }
}
