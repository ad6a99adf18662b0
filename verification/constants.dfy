/**
 * The shared card template every notification starts from. Its `${...}`
 * placeholders are literal text: nothing ever substitutes them.
 */
module Constants {
  import opened Wrappers
  import opened AdaptiveCard

  const SchemaUrl := "http://adaptivecards.io/schemas/adaptive-card.json"
  const TemplateVersion := "1.6"

  /** A text block with only a text and a small spacing, as in the template's summary columns. */
  function SmallText(text: string): TextBlock {
    TextBlock(Str(text), None, None, None, Some("Small"), None, None)
  }

  /** A bold column heading. */
  function HeadingText(text: string): TextBlock {
    TextBlock(Str(text), None, Some("Bolder"), None, None, None, None)
  }

  /** A wrapping text block. */
  function WrappedText(text: string): TextBlock {
    TextBlock(Str(text), None, None, None, None, Some(true), None)
  }

  /**
   * The template card: six fixed body items, a full-width `msteams` extension
   * without mention entities, no actions, and schema version 1.6.
   */
  function BaseAdaptiveCard(): (c: Card)
    ensures |c.body| == 6
    ensures c.msteams == MsTeams("Full", None)
    ensures c.actions == []
    ensures c.schema == SchemaUrl
    ensures c.version == TemplateVersion
    ensures forall i :: 0 <= i < |c.body| ==> !c.body[i].Container? && !c.body[i].TableItem?
  {
    Card(
      [ TextItem(TextBlock(Str("Test Run Report"), Some("Large"), Some("Bolder"), None, None, None, None)),
        TextItem(TextBlock(Str("Status: ${status}"), None, None, Some("Good"), None, Some(true), None)),
        TextItem(WrappedText("Environment: ${environment}")),
        TextItem(WrappedText("Duration: ${duration}")),
        ColumnSet(
          [ Column("stretch",
              [ HeadingText("Type"),
                SmallText("Passed"),
                SmallText("Failed"),
                SmallText("Skipped"),
                SmallText("Total Tests") ]),
            Column("auto",
              [ HeadingText("Total"),
                SmallText("${passed}"),
                SmallText("${failed}"),
                SmallText("${skipped}"),
                SmallText("${total}") ]) ]),
        TextItem(WrappedText("Test Name: ${testName}")) ],
      MsTeams("Full", None),
      [],
      SchemaUrl,
      TemplateVersion)
  }
}
