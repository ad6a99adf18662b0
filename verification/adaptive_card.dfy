/**
 * The Adaptive Card document the reporter assembles, as a tree of immutable
 * values. Every node kind is its own constructor, so the `type` strings of the
 * JSON form ("TextBlock", "TableRow", "Action.OpenUrl", ...) are implicit.
 */
module AdaptiveCard {
  import opened Wrappers

  /** The value of a `text` property: a string, a number, or `undefined` (which serialisation drops). */
  datatype Value = Str(s: string) | Num(n: int) | Undefined

  /** Converts an optional option string to the `text` value it produces. */
  function OptionText(s: Option<string>): (v: Value)
    ensures v.Undefined? <==> s.None?
    ensures s.Some? ==> v == Str(s.value)
  {
    match s
    case Some(t) => Str(t)
    case None => Undefined
  }

  /** A "TextBlock"; an absent property is `None`. */
  datatype TextBlock = TextBlock(
    text: Value,
    size: Option<string>,
    weight: Option<string>,
    color: Option<string>,
    spacing: Option<string>,
    wrap: Option<bool>,
    isSubtle: Option<bool>)

  /** A "TableCell" holding text blocks, with an optional container style. */
  datatype TableCell = TableCell(items: seq<TextBlock>, style: Option<string>)

  /** A "TableRow". */
  datatype TableRow = TableRow(cells: seq<TableCell>)

  /**
   * A "Table". Only its rows are built by the reporter; its other properties come
   * unchanged from a shared constant and are kept here as key/value pairs.
   */
  datatype Table = Table(layout: seq<(string, string)>, rows: seq<TableRow>)

  /** A "Column" of a "ColumnSet". */
  datatype Column = Column(width: string, items: seq<TextBlock>)

  /** The background image of a "Container". */
  datatype BackgroundImage = BackgroundImage(url: string, fillMode: string)

  /** A body element of the card. */
  datatype Element =
    | TextItem(block: TextBlock)
    | ColumnSet(columns: seq<Column>)
    | TableItem(table: Table)
    | Container(items: seq<Element>, bleed: bool, backgroundImage: BackgroundImage)

  /** A Teams "mention" entity: the `<at>` text and the mentioned user's id and name. */
  datatype Entity = MentionEntity(text: string, mentionedId: string, mentionedName: string)

  /** The card's `msteams` extension; `entities` is absent unless someone is mentioned. */
  datatype MsTeams = MsTeams(width: string, entities: Option<seq<Entity>>)

  /** An "Action.OpenUrl" button; its title may be `undefined`. */
  datatype Action = OpenUrl(title: Option<string>, url: string)

  /** An "AdaptiveCard" with its `$schema` and `version`. */
  datatype Card = Card(
    body: seq<Element>,
    msteams: MsTeams,
    actions: seq<Action>,
    schema: string,
    version: string)
}
