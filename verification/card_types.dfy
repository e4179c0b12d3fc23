/** The card configuration model: the two closed enumerations (aspect ratio
    and visual style), their string values, the parse functions that reject
    every other string, and the five-field card record. */
module CardTypes {

  /** Outcome of parsing an external string into a closed enumeration. */
  datatype Option<+T> = None | Some(value: T)

  // ---------------------------------------------------------------------
  // Aspect ratio

  datatype AspectRatio = Portrait | Square | Story

  /** Every member of AspectRatio, in declaration order. */
  const AllRatios: seq<AspectRatio> := [Portrait, Square, Story]

  /** The string value each member carries. */
  function RatioValue(r: AspectRatio): string {
    match r
    case Portrait => "3:4"
    case Square => "1:1"
    case Story => "9:16"
  }

  /** The values of the enumeration object, i.e. the strings a ratio parameter may hold. */
  const RatioValues: set<string> := {"3:4", "1:1", "9:16"}

  /** Accepts exactly the declared string values; anything else is rejected
      so that the caller keeps its fallback. */
  function ParseRatio(s: string): (r: Option<AspectRatio>)
    ensures r.Some? <==> s in RatioValues
    ensures r.Some? ==> RatioValue(r.value) == s
  {
    if s == "3:4" then Some(Portrait)
    else if s == "1:1" then Some(Square)
    else if s == "9:16" then Some(Story)
    else None
  }

  lemma RatioMembers()
    ensures |AllRatios| == 3
    ensures forall r: AspectRatio :: r in AllRatios
    ensures forall i, j :: 0 <= i < j < |AllRatios| ==> RatioValue(AllRatios[i]) != RatioValue(AllRatios[j])
    ensures forall r: AspectRatio :: RatioValue(r) in RatioValues
    ensures |RatioValues| == 3
  {
    forall r: AspectRatio
      ensures r in AllRatios
    {
      match r
      case Portrait => assert AllRatios[0] == r;
      case Square => assert AllRatios[1] == r;
      case Story => assert AllRatios[2] == r;
    }
  }

  lemma RatioValueInjective(a: AspectRatio, b: AspectRatio)
    ensures RatioValue(a) == RatioValue(b) <==> a == b
  {
  }

  /** Parsing a member's own value returns that member. */
  lemma ParseRatioValue(r: AspectRatio)
    ensures ParseRatio(RatioValue(r)) == Some(r)
  {
  }

  // ---------------------------------------------------------------------
  // Card style

  datatype CardStyle = Editorial | Overlay | Minimal | Glass | Bold | Zen

  /** Every member of CardStyle, in declaration order. */
  const AllStyles: seq<CardStyle> := [Editorial, Overlay, Minimal, Glass, Bold, Zen]

  function StyleValue(s: CardStyle): string {
    match s
    case Editorial => "editorial"
    case Overlay => "overlay"
    case Minimal => "minimal"
    case Glass => "glass"
    case Bold => "bold"
    case Zen => "zen"
  }

  const StyleValues: set<string> := {"editorial", "overlay", "minimal", "glass", "bold", "zen"}

  function ParseStyle(s: string): (r: Option<CardStyle>)
    ensures r.Some? <==> s in StyleValues
    ensures r.Some? ==> StyleValue(r.value) == s
  {
    if s == "editorial" then Some(Editorial)
    else if s == "overlay" then Some(Overlay)
    else if s == "minimal" then Some(Minimal)
    else if s == "glass" then Some(Glass)
    else if s == "bold" then Some(Bold)
    else if s == "zen" then Some(Zen)
    else None
  }

  lemma StyleMembers()
    ensures |AllStyles| == 6
    ensures forall s: CardStyle :: s in AllStyles
    ensures forall i, j :: 0 <= i < j < |AllStyles| ==> StyleValue(AllStyles[i]) != StyleValue(AllStyles[j])
    ensures forall s: CardStyle :: StyleValue(s) in StyleValues
    ensures |StyleValues| == 6
  {
    forall s: CardStyle
      ensures s in AllStyles
    {
      match s
      case Editorial => assert AllStyles[0] == s;
      case Overlay => assert AllStyles[1] == s;
      case Minimal => assert AllStyles[2] == s;
      case Glass => assert AllStyles[3] == s;
      case Bold => assert AllStyles[4] == s;
      case Zen => assert AllStyles[5] == s;
    }
  }

  lemma StyleValueInjective(a: CardStyle, b: CardStyle)
    ensures StyleValue(a) == StyleValue(b) <==> a == b
  {
  }

  lemma ParseStyleValue(s: CardStyle)
    ensures ParseStyle(StyleValue(s)) == Some(s)
  {
  }

  // ---------------------------------------------------------------------
  // Card data

  /** Five free-text fields; nothing constrains their contents. */
  datatype CardData = CardData(
    title: string,
    subtitle: string,
    footerText: string,
    author: string,
    imageUrl: string)

  /** The four text fields the editor form binds by input name. */
  datatype TextField = Title | Subtitle | Author | FooterText

  const AllTextFields: seq<TextField> := [Title, Subtitle, Author, FooterText]

  /** The name of the form input, which is also the query parameter key. */
  function FieldName(f: TextField): string {
    match f
    case Title => "title"
    case Subtitle => "subtitle"
    case Author => "author"
    case FooterText => "footerText"
  }

  function GetText(card: CardData, f: TextField): string {
    match f
    case Title => card.title
    case Subtitle => card.subtitle
    case Author => card.author
    case FooterText => card.footerText
  }

  /** Overwrites one named text field; everything else is carried over. */
  function WithText(card: CardData, f: TextField, v: string): (r: CardData)
    ensures GetText(r, f) == v
    ensures forall g :: g != f ==> GetText(r, g) == GetText(card, g)
    ensures r.imageUrl == card.imageUrl
  {
    match f
    case Title => card.(title := v)
    case Subtitle => card.(subtitle := v)
    case Author => card.(author := v)
    case FooterText => card.(footerText := v)
  }

  /** Two cards are equal exactly when their image and four text fields agree. */
  lemma CardExtensionality(a: CardData, b: CardData)
    requires a.imageUrl == b.imageUrl
    requires forall f :: GetText(a, f) == GetText(b, f)
    ensures a == b
  {
    assert GetText(a, Title) == GetText(b, Title);
    assert GetText(a, Subtitle) == GetText(b, Subtitle);
    assert GetText(a, Author) == GetText(b, Author);
    assert GetText(a, FooterText) == GetText(b, FooterText);
  }

  lemma FieldNamesDistinct(f: TextField, g: TextField)
    ensures FieldName(f) == FieldName(g) <==> f == g
  {
  }
}
