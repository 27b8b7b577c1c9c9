/** How a canvas node's category decides its look: the `categoryColors`
    table, the selected-border gradient, the selected glow, the header
    background and the label colour. Every lookup is total: a category
    outside the sixteen known names takes an explicit default. */
module CategoryStyle {
  import opened Wrappers
  import Decimal

  datatype Category =
    | Agents | Cache | Chains | ChatModels | DocumentLoaders | Embeddings
    | LLMs | Memory | Moderation | OutputParsers | Prompts | Retrievers
    | TextSplitters | Tools | Utilities | VectorStores

  /** The category name as it appears in a node's `category` field. */
  function Name(c: Category): string {
    match c
    case Agents => "Agents"
    case Cache => "Cache"
    case Chains => "Chains"
    case ChatModels => "Chat Models"
    case DocumentLoaders => "Document Loaders"
    case Embeddings => "Embeddings"
    case LLMs => "LLMs"
    case Memory => "Memory"
    case Moderation => "Moderation"
    case OutputParsers => "Output Parsers"
    case Prompts => "Prompts"
    case Retrievers => "Retrievers"
    case TextSplitters => "Text Splitters"
    case Tools => "Tools"
    case Utilities => "Utilities"
    case VectorStores => "Vector Stores"
  }

  /** The `switch (data.category)` dispatch: which case label, if any, matches. */
  function Parse(s: string): (r: Option<Category>)
    ensures r.Some? ==> Name(r.value) == s
    ensures r.None? ==> forall c :: Name(c) != s
  {
    if s == "Agents" then Some(Agents)
    else if s == "Cache" then Some(Cache)
    else if s == "Chains" then Some(Chains)
    else if s == "Chat Models" then Some(ChatModels)
    else if s == "Document Loaders" then Some(DocumentLoaders)
    else if s == "Embeddings" then Some(Embeddings)
    else if s == "LLMs" then Some(LLMs)
    else if s == "Memory" then Some(Memory)
    else if s == "Moderation" then Some(Moderation)
    else if s == "Output Parsers" then Some(OutputParsers)
    else if s == "Prompts" then Some(Prompts)
    else if s == "Retrievers" then Some(Retrievers)
    else if s == "Text Splitters" then Some(TextSplitters)
    else if s == "Tools" then Some(Tools)
    else if s == "Utilities" then Some(Utilities)
    else if s == "Vector Stores" then Some(VectorStores)
    else None
  }

  lemma ParseName(c: Category)
    ensures Parse(Name(c)) == Some(c)
  {
    match c
    case Agents =>
    case Cache =>
    case Chains =>
    case ChatModels =>
    case DocumentLoaders =>
    case Embeddings =>
    case LLMs =>
    case Memory =>
    case Moderation =>
    case OutputParsers =>
    case Prompts =>
    case Retrievers =>
    case TextSplitters =>
    case Tools =>
    case Utilities =>
    case VectorStores =>
  }

  predicate IsHexDigit(ch: char) {
    '0' <= ch <= '9' || 'A' <= ch <= 'F' || 'a' <= ch <= 'f'
  }

  /** The `categoryColors` table: every entry is a `#RRGGBB` colour. */
  function Color(c: Category): (color: string)
    ensures |color| == 7 && color[0] == '#'
    ensures forall k :: 1 <= k < 7 ==> IsHexDigit(color[k])
  {
    match c
    case Agents => "#6DC4AD"
    case Cache => "#401877"
    case Chains => "#6DC4AD"
    case ChatModels => "#469DBB"
    case DocumentLoaders => "#9D4B8E"
    case Embeddings => "#EBA93D"
    case LLMs => "#E19379"
    case Memory => "#EE7BB3"
    case Moderation => "#A070A6"
    case OutputParsers => "#A5A5A5"
    case Prompts => "#FFF860"
    case Retrievers => "#121D35"
    case TextSplitters => "#F3A326"
    case Tools => "#EEEEEE"
    case Utilities => "#333333"
    case VectorStores => "#A56FA8"
  }

  const DefaultBorder: string := "linear-gradient(to bottom right, #e084b4, #77bfaf, #e084b4, #77bfaf )"
  const DefaultShadow: string := "0 0 12px rgb(224, 132, 180, 20), 0 0 15px rgb(119, 191, 175, 20)"

  /** A gradient whose two stops are the same colour. */
  function SolidGradient(color: string): string {
    "linear-gradient(to bottom right, " + color + ", " + color + " )"
  }

  /** The border of a selected node: each case of the switch names one colour, used for both stops. */
  function SelectedBorder(c: Category): string {
    match c
    case Agents => SolidGradient("#6DC4AD")
    case Cache => SolidGradient("#401877")
    case Chains => SolidGradient("#6DC4AD")
    case ChatModels => SolidGradient("#469DBB")
    case DocumentLoaders => SolidGradient("#9D4B8E")
    case Embeddings => SolidGradient("#EBA93D")
    case LLMs => SolidGradient("#E19379")
    case Memory => SolidGradient("#EE7BB3")
    case Moderation => SolidGradient("#A070A6")
    case OutputParsers => SolidGradient("#A5A5A5")
    case Prompts => SolidGradient("#FFF860")
    case Retrievers => SolidGradient("#121D35")
    case TextSplitters => SolidGradient("#F3A326")
    case Tools => SolidGradient("#EEEEEE")
    case Utilities => SolidGradient("#333333")
    case VectorStores => SolidGradient("#A56FA8")
  }

  /** The border switch and the `categoryColors` table name the same colour for every category. */
  lemma SelectedBorderIsCategoryColor(c: Category)
    ensures SelectedBorder(c) == SolidGradient(Color(c))
  {
    match c
    case Agents =>
    case Cache =>
    case Chains =>
    case ChatModels =>
    case DocumentLoaders =>
    case Embeddings =>
    case LLMs =>
    case Memory =>
    case Moderation =>
    case OutputParsers =>
    case Prompts =>
    case Retrievers =>
    case TextSplitters =>
    case Tools =>
    case Utilities =>
    case VectorStores =>
  }

  /** The decimal red, green and blue that each case of the shadow switch names. */
  function ShadowRgb(c: Category): (nat, nat, nat) {
    match c
    case Agents => (109, 196, 173)
    case Cache => (64, 24, 119)
    case Chains => (109, 196, 173)
    case ChatModels => (70, 157, 187)
    case DocumentLoaders => (157, 75, 142)
    case Embeddings => (235, 169, 61)
    case LLMs => (225, 147, 121)
    case Memory => (238, 123, 179)
    case Moderation => (160, 112, 166)
    case OutputParsers => (165, 165, 165)
    case Prompts => (255, 248, 96)
    case Retrievers => (18, 29, 53)
    case TextSplitters => (243, 163, 38)
    case Tools => (238, 238, 238)
    case Utilities => (51, 51, 51)
    case VectorStores => (165, 111, 168)
  }

  function HexDigitValue(c: char): (d: nat)
    ensures d < 16
  {
    if '0' <= c <= '9' then c as int - '0' as int
    else if 'A' <= c <= 'F' then c as int - 'A' as int + 10
    else if 'a' <= c <= 'f' then c as int - 'a' as int + 10
    else 0
  }

  /** The value of the two hex digits of a `#RRGGBB` colour starting at `at`. */
  function Channel(color: string, at: nat): (v: nat)
    requires at + 1 < |color|
    ensures v < 256
  {
    HexDigitValue(color[at]) * 16 + HexDigitValue(color[at + 1])
  }

  /** A glow in the given colour, as the switch writes its `rgba(r, g, b, 50)`. */
  function Glow(r: nat, g: nat, b: nat): string {
    "0 0 15px rgba(" + Decimal.NatToString(r) + ", " + Decimal.NatToString(g) + ", "
      + Decimal.NatToString(b) + ", 50)"
  }

  /** The glow of a selected node. */
  function SelectedShadow(c: Category): string {
    var (r, g, b) := ShadowRgb(c);
    Glow(r, g, b)
  }

  /** The shadow switch glows in the `categoryColors` colour of every category:
      its decimal channels are the `#RRGGBB` hex digits of the table entry. */
  lemma SelectedShadowIsCategoryColor(c: Category)
    ensures |Color(c)| == 7
    ensures ShadowRgb(c) == (Channel(Color(c), 1), Channel(Color(c), 3), Channel(Color(c), 5))
    ensures SelectedShadow(c) == Glow(Channel(Color(c), 1), Channel(Color(c), 3), Channel(Color(c), 5))
  {
    match c
    case Agents =>
    case Cache =>
    case Chains =>
    case ChatModels =>
    case DocumentLoaders =>
    case Embeddings =>
    case LLMs =>
    case Memory =>
    case Moderation =>
    case OutputParsers =>
    case Prompts =>
    case Retrievers =>
    case TextSplitters =>
    case Tools =>
    case Utilities =>
    case VectorStores =>
  }

  /** `borderImage` of a node: the single-colour gradient of its category when
      it is selected and the category is known, the four-stop default otherwise. */
  function BorderImage(selected: bool, category: string): (r: string)
    ensures !selected || Parse(category).None? ==> r == DefaultBorder
    ensures selected && Parse(category).Some? ==> r == SolidGradient(Color(Parse(category).value))
  {
    if !selected then DefaultBorder
    else
      match Parse(category)
      case None => DefaultBorder
      case Some(c) => SelectedBorderIsCategoryColor(c); SelectedBorder(c)
  }

  /** `boxShadow` of a node: a glow in its category colour when it is selected
      and the category is known, the double default shadow otherwise. */
  function BoxShadow(selected: bool, category: string): (r: string)
    ensures !selected || Parse(category).None? ==> r == DefaultShadow
    ensures selected && Parse(category).Some? ==>
      var color := Color(Parse(category).value);
      |color| == 7 && r == Glow(Channel(color, 1), Channel(color, 3), Channel(color, 5))
  {
    if !selected then DefaultShadow
    else
      match Parse(category)
      case None => DefaultShadow
      case Some(c) => SelectedShadowIsCategoryColor(c); SelectedShadow(c)
  }

  /** The header-background switch: each case names its own colour. */
  function HeaderSwitch(c: Category): string {
    match c
    case Agents => "#6DC4AD"
    case Cache => "#401877"
    case Chains => "#6DC4AD"
    case ChatModels => "#469DBB"
    case DocumentLoaders => "#9D4B8E"
    case Embeddings => "#EBA93D"
    case LLMs => "#E19379"
    case Memory => "#EE7BB3"
    case Moderation => "#A070A6"
    case OutputParsers => "#A5A5A5"
    case Prompts => "#FFF860"
    case Retrievers => "#121D35"
    case TextSplitters => "#F3A326"
    case Tools => "#EEEEEE"
    case Utilities => "#333333"
    case VectorStores => "#A56FA8"
  }

  /** The header switch and the `categoryColors` table agree on every category. */
  lemma HeaderSwitchIsCategoryColor(c: Category)
    ensures HeaderSwitch(c) == Color(c)
  {
    match c
    case Agents =>
    case Cache =>
    case Chains =>
    case ChatModels =>
    case DocumentLoaders =>
    case Embeddings =>
    case LLMs =>
    case Memory =>
    case Moderation =>
    case OutputParsers =>
    case Prompts =>
    case Retrievers =>
    case TextSplitters =>
    case Tools =>
    case Utilities =>
    case VectorStores =>
  }

  /** Background of the node header: the category's `categoryColors` entry,
      a `#RRGGBB` colour, and transparent exactly for an unknown category. */
  function HeaderBackground(category: string): (r: string)
    ensures r == "transparent" <==> Parse(category).None?
    ensures Parse(category).Some? ==> r == Color(Parse(category).value) && |r| == 7 && r[0] == '#'
  {
    match Parse(category)
    case None => "transparent"
    case Some(c) => HeaderSwitchIsCategoryColor(c); HeaderSwitch(c)
  }

  /** Colour of the node label: white on the three named categories, and
      otherwise the darkest header colour (that of Retrievers). */
  function LabelColor(category: string): (r: string)
    ensures r == "white" || r == Color(Retrievers)
    ensures r == "white" <==> Parse(category) in {Some(Cache), Some(Retrievers), Some(Utilities)}
  {
    if category == "Cache" || category == "Retrievers" || category == "Utilities" then "white"
    else "#121D35"
  }

  /** A header colour whose three channels add up to less than 300. The
      source has no notion of darkness; this threshold is the model's own and
      is fitted to the table: the three white-label colours sum to at most 207
      and every other colour to at least 374, so any threshold from 208 to 374
      draws the same line. */
  predicate IsDark(color: string)
    requires |color| == 7
  {
    Channel(color, 1) + Channel(color, 3) + Channel(color, 5) < 300
  }

  /** The label is white exactly on the headers that are dark; on every light
      or transparent header it keeps the dark text colour. */
  lemma WhiteLabelExactlyOnDarkHeader(category: string)
    ensures LabelColor(category) == "white" <==>
      (Parse(category).Some? && |Color(Parse(category).value)| == 7 && IsDark(Color(Parse(category).value)))
  {
    match Parse(category)
    case None =>
    case Some(c) =>
      assert category == Name(c);
      match c
      case Agents =>
      case Cache =>
      case Chains =>
      case ChatModels =>
      case DocumentLoaders =>
      case Embeddings =>
      case LLMs =>
      case Memory =>
      case Moderation =>
      case OutputParsers =>
      case Prompts =>
      case Retrievers =>
      case TextSplitters =>
      case Tools =>
      case Utilities =>
      case VectorStores =>
  }
}
