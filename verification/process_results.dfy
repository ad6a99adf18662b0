/**
 * `processResults`: decides whether a run produces a Teams notification and,
 * when it does, assembles the Adaptive Card from the template. Serialising the
 * card and posting it are outside this model; the outcome says what would be sent.
 */
module ProcessResults {
  import opened Wrappers
  import opened AdaptiveCard
  import opened TableRows
  import Constants

  /** The two kinds of incoming webhook the reporter knows. */
  datatype WebhookType = Teams | PowerAutomate

  /** The aggregated status of a run. */
  datatype Counts = Counts(passed: nat, failed: nat, skipped: nat, flaky: nat)

  /** A user to mention on failure. */
  datatype Mention = Mention(name: string, email: string)

  /** What the mention helper returns: a message and the users it mentions. */
  datatype MentionData = MentionData(message: Option<string>, mentions: seq<Mention>)

  /**
   * The reporter options the core reads, for a suite of type `S`. Link URLs given
   * as suppliers are taken here as the strings they resolve to.
   */
  datatype Options<-S> = Options(
    webhookUrl: Option<string>,
    webhookType: Option<WebhookType>,
    title: Option<string>,
    notifyOnSuccess: bool,
    shouldRun: Option<S -> bool>,
    mentionOnFailure: Option<string>,
    mentionOnFailureText: Option<string>,
    linkToResultsUrl: Option<string>,
    linkToResultsText: Option<string>,
    linkTextOnFailure: Option<string>,
    linkUrlOnFailure: Option<string>)

  /**
   * The helpers the core calls but whose bodies are not part of this model, and
   * the suite's test count (`allTests().length`). Any behaviour is allowed.
   */
  datatype Helpers<-S> = Helpers(
    validateWebhookUrl: (string, Option<WebhookType>) -> bool,
    getTotalStatus: S -> Counts,
    countAllTests: S -> nat,
    getMentions: (Option<string>, Option<string>) -> Option<MentionData>,
    getNotificationTitle: Counts -> string,
    getNotificationColor: Counts -> string,
    getNotificationBackground: Counts -> string)

  /** Why nothing is sent, or the card that is sent. */
  datatype Outcome =
    | NoWebhookUrl
    | InvalidWebhookUrl
    | NoSuite
    | NotRun
    | NothingFailed
    | Deliver(card: Card)

  const PowerAutomateVersion := "1.4"

  const PassedLabel := "\U{2705} Passed"
  const FlakyLabel := "\U{26A0}\U{FE0F} Flaky"
  const FailedLabel := "\U{274C} Failed"
  const SkippedLabel := "\U{23ED}\U{FE0F} Skipped"
  const TotalLabel := "Total tests"

  // ---------------------------------------------------------------------------
  // Gating

  /** The webhook URL is present, non-empty and valid for the configured kind. */
  predicate UrlAccepted<S>(h: Helpers<S>, o: Options<S>) {
    Truthy(o.webhookUrl) && h.validateWebhookUrl(o.webhookUrl.value, o.webhookType)
  }

  /** The URL is accepted, a suite is given, and the `shouldRun` predicate, if any, agrees. */
  predicate Runs<S>(h: Helpers<S>, o: Options<S>, suite: Option<S>) {
    UrlAccepted(h, o) && suite.Some? && (o.shouldRun.None? || o.shouldRun.value(suite.value))
  }

  // ---------------------------------------------------------------------------
  // Summary table

  /** The header row "Type" / "Total", with default settings. */
  function LabelRowHeader(): (r: TableRow)
    ensures |r.cells| == 2 && |r.cells[0].items| == 1
    ensures CellTexts(r) == [Str("Type"), Str("Total")] && RowStyle(r).None?
    ensures RowLabel(r) == Str("Type")
    ensures r.cells[0].items[0].isSubtle.None? && r.cells[0].items[0].weight.None?
  {
    CreateTableRow(Str("Type"), Str("Total"), None, DefaultRowOptions)
  }

  /** A two-cell row reporting `count` under `name`. */
  function LabelRow(name: string, count: nat, options: RowOptions): (r: TableRow)
    ensures |r.cells| == 2 && |r.cells[0].items| == 1
    ensures RowLabel(r) == Str(name) && RowValue(r) == Num(count) && RowStyle(r) == options.style
    ensures r.cells[0].items[0].isSubtle == options.isSubtle && r.cells[0].items[0].weight == options.weight
  {
    CreateTableRow(Str(name), Num(count), None, options)
  }

  /** The labels of the summary rows in table order; the Flaky label only when some test was flaky. */
  function SummaryLabels(counts: Counts): seq<string> {
    ["Type", PassedLabel] + (if counts.flaky != 0 then [FlakyLabel] else []) + [FailedLabel, SkippedLabel, TotalLabel]
  }

  /**
   * The summary rows, in order: header, Passed, Flaky (only when some test was
   * flaky), Failed, Skipped, Total tests. Each reports its count under its label
   * with its style; the total is the suite's test count, not a sum of the rows.
   */
  function SummaryRows(counts: Counts, totalTests: nat): (rows: seq<TableRow>)
    ensures |rows| == if counts.flaky != 0 then 6 else 5
    ensures |rows| == |SummaryLabels(counts)|
    ensures forall i :: 0 <= i < |rows| ==> RowLabel(rows[i]) == Str(SummaryLabels(counts)[i])
    ensures forall i :: 0 <= i < |rows| ==> |rows[i].cells| == 2 && |rows[i].cells[0].items| == 1
    ensures CellTexts(rows[0]) == [Str("Type"), Str("Total")] && RowStyle(rows[0]).None?
    ensures RowLabel(rows[1]) == Str(PassedLabel) && RowValue(rows[1]) == Num(counts.passed)
    ensures RowStyle(rows[1]) == Some("good")
    ensures counts.flaky != 0 ==>
      RowLabel(rows[2]) == Str(FlakyLabel) && RowValue(rows[2]) == Num(counts.flaky)
      && RowStyle(rows[2]) == Some("warning")
    ensures (exists i :: 0 <= i < |rows| && RowLabel(rows[i]) == Str(FlakyLabel)) <==> counts.flaky != 0
    ensures RowLabel(rows[|rows| - 3]) == Str(FailedLabel) && RowValue(rows[|rows| - 3]) == Num(counts.failed)
    ensures RowStyle(rows[|rows| - 3]) == Some("attention")
    ensures RowLabel(rows[|rows| - 2]) == Str(SkippedLabel) && RowValue(rows[|rows| - 2]) == Num(counts.skipped)
    ensures RowStyle(rows[|rows| - 2]) == Some("accent")
    ensures RowLabel(rows[|rows| - 1]) == Str(TotalLabel) && RowValue(rows[|rows| - 1]) == Num(totalTests)
    ensures forall i :: 0 <= i < |rows| ==>
      (rows[i].cells[0].items[0].isSubtle == Some(true) <==> i == |rows| - 1)
    ensures forall i :: 0 <= i < |rows| ==>
      (rows[i].cells[0].items[0].weight == Some("Bolder") <==> i == |rows| - 1)
  {
    var header := LabelRowHeader();
    var passed := LabelRow(PassedLabel, counts.passed, RowOptions(Some("good"), None, None));
    var failed := LabelRow(FailedLabel, counts.failed, RowOptions(Some("attention"), None, None));
    var skipped := LabelRow(SkippedLabel, counts.skipped, RowOptions(Some("accent"), None, None));
    var total := LabelRow(TotalLabel, totalTests, RowOptions(None, Some(true), Some("Bolder")));
    if counts.flaky != 0 then
      var flaky := LabelRow(FlakyLabel, counts.flaky, RowOptions(Some("warning"), None, None));
      [header, passed, flaky, failed, skipped, total]
    else
      [header, passed, failed, skipped, total]
  }

  // ---------------------------------------------------------------------------
  // Card body

  /** The results container: the title, the status headline and the summary table, over the background. */
  function ResultsContainer(title: Option<string>, headline: string, color: string, background: string, table: Table): Element {
    Container(
      [ TextItem(TextBlock(OptionText(title), Some("ExtraLarge"), Some("Bolder"), None, None, None, None)),
        TextItem(TextBlock(Str(headline), Some("Large"), Some("Bolder"), Some(color), None, None, None)),
        TableItem(table) ],
      true,
      BackgroundImage(background, "RepeatHorizontally"))
  }

  // ---------------------------------------------------------------------------
  // Mentions

  /** The mention entity for one user: `<at>email</at>`, identified by the email, named by the name. */
  function EntityFor(m: Mention): (e: Entity)
    ensures e.mentionedId == m.email && e.mentionedName == m.name
    ensures |e.text| == |m.email| + 9
    ensures e.text[..4] == "<at>" && e.text[|e.text| - 5..] == "</at>"
    ensures e.text[4..|e.text| - 5] == m.email
  {
    MentionEntity("<at>" + m.email + "</at>", m.email, m.name)
  }

  /** One entity per mentioned user, in the same order. */
  function MentionEntities(ms: seq<Mention>): (es: seq<Entity>)
    ensures |es| == |ms|
    ensures forall i :: 0 <= i < |ms| ==> es[i] == EntityFor(ms[i])
  {
    if ms == [] then [] else [EntityFor(ms[0])] + MentionEntities(ms[1..])
  }

  /** The users an entity list mentions, read back from the entities' ids and names. */
  function MentionsOf(es: seq<Entity>): seq<Mention> {
    if es == [] then [] else [Mention(es[0].mentionedName, es[0].mentionedId)] + MentionsOf(es[1..])
  }

  /** The entities built for a mention list name exactly those users, in order. */
  lemma {:induction false} MentionsRoundTrip(ms: seq<Mention>)
    ensures MentionsOf(MentionEntities(ms)) == ms
  {
    if ms != [] {
      MentionsRoundTrip(ms[1..]);
      assert MentionEntities(ms) == [EntityFor(ms[0])] + MentionEntities(ms[1..]);
      assert MentionEntities(ms)[1..] == MentionEntities(ms[1..]);
    }
  }

  /** Whether a mention is added: the run failed, the message is non-empty, and someone is mentioned. */
  predicate MentionApplies(counts: Counts, data: Option<MentionData>) {
    counts.failed != 0 && data.Some? && Truthy(data.value.message) && |data.value.mentions| > 0
  }

  /** The mention data the helper yields; it is only consulted for a failed run. */
  function MentionDataFor<S>(h: Helpers<S>, o: Options<S>, counts: Counts): Option<MentionData> {
    if counts.failed == 0 then None else h.getMentions(o.mentionOnFailure, o.mentionOnFailureText)
  }

  /** The mention message block. */
  function MentionBlock(message: string): Element {
    TextItem(TextBlock(Str(message), Some("Medium"), None, None, None, Some(true), None))
  }

  /** Adds the mention block and entities when the mention rule holds, and changes nothing otherwise. */
  function AddMention(card: Card, counts: Counts, data: Option<MentionData>): (c: Card)
    ensures c.actions == card.actions && c.schema == card.schema && c.version == card.version
    ensures c.msteams.width == card.msteams.width
    ensures !MentionApplies(counts, data) ==> c == card
    ensures MentionApplies(counts, data) ==>
      && c.body == card.body + [MentionBlock(data.value.message.value)]
      && c.msteams.entities == Some(MentionEntities(data.value.mentions))
  {
    if MentionApplies(counts, data) then
      card.(body := card.body + [MentionBlock(data.value.message.value)],
            msteams := card.msteams.(entities := Some(MentionEntities(data.value.mentions))))
    else card
  }

  // ---------------------------------------------------------------------------
  // Actions

  /** The results link is added when its URL resolves to a non-empty string. */
  predicate WantsResultsLink<S>(o: Options<S>) {
    Truthy(o.linkToResultsUrl)
  }

  /** The failure link is added on failure when its text and a non-empty URL are both given. */
  predicate WantsFailureLink<S>(o: Options<S>, counts: Counts) {
    counts.failed != 0 && Truthy(o.linkTextOnFailure) && Truthy(o.linkUrlOnFailure)
  }

  /** Appends the results link and then the failure link, each only when wanted. */
  function AddActions<S>(card: Card, o: Options<S>, counts: Counts): (c: Card)
    ensures c.body == card.body && c.msteams == card.msteams
    ensures c.schema == card.schema && c.version == card.version
    ensures |c.actions| == |card.actions|
      + (if WantsResultsLink(o) then 1 else 0) + (if WantsFailureLink(o, counts) then 1 else 0)
    ensures c.actions[..|card.actions|] == card.actions
    ensures WantsResultsLink(o) ==>
      c.actions[|card.actions|] == OpenUrl(o.linkToResultsText, o.linkToResultsUrl.value)
    ensures WantsFailureLink(o, counts) ==>
      c.actions[|c.actions| - 1] == OpenUrl(o.linkTextOnFailure, o.linkUrlOnFailure.value)
  {
    var results := if WantsResultsLink(o) then [OpenUrl(o.linkToResultsText, o.linkToResultsUrl.value)] else [];
    var failure := if WantsFailureLink(o, counts) then [OpenUrl(o.linkTextOnFailure, o.linkUrlOnFailure.value)] else [];
    card.(actions := card.actions + results + failure)
  }

  // ---------------------------------------------------------------------------
  // Assembly

  /** The schema version: lowered for Power Automate, otherwise the card's own. */
  function WithVersion(card: Card, kind: Option<WebhookType>): (c: Card)
    ensures c.body == card.body && c.msteams == card.msteams && c.actions == card.actions && c.schema == card.schema
    ensures kind == Some(PowerAutomate) ==> c.version == PowerAutomateVersion
    ensures kind != Some(PowerAutomate) ==> c.version == card.version
  {
    if kind == Some(PowerAutomate) then card.(version := PowerAutomateVersion) else card
  }

  /**
   * The card for a run that passed every gate, around the given summary rows. It
   * extends the template: the template body, then the results container with the
   * summary rows appended to the base table, then the mention block when the mention rule holds; mention
   * entities exactly under the same rule; the 0-2 link buttons; and version 1.4
   * exactly for Power Automate, the template's 1.6 otherwise.
   */
  function BuildCard<S>(h: Helpers<S>, o: Options<S>, counts: Counts, summary: seq<TableRow>, baseTable: Table): (c: Card)
    ensures |c.body| == if MentionApplies(counts, MentionDataFor(h, o, counts)) then 8 else 7
    ensures c.body[..6] == Constants.BaseAdaptiveCard().body
    ensures c.body[6] == ResultsContainer(
      o.title, h.getNotificationTitle(counts), h.getNotificationColor(counts),
      h.getNotificationBackground(counts),
      baseTable.(rows := baseTable.rows + summary))
    ensures MentionApplies(counts, MentionDataFor(h, o, counts)) ==>
      var data := MentionDataFor(h, o, counts).value;
      && c.body[7] == MentionBlock(data.message.value)
      && c.msteams.entities == Some(MentionEntities(data.mentions))
    ensures c.msteams.entities.Some? <==> MentionApplies(counts, MentionDataFor(h, o, counts))
    ensures c.msteams.width == "Full"
    ensures c.schema == Constants.SchemaUrl
    ensures |c.actions| == (if WantsResultsLink(o) then 1 else 0) + (if WantsFailureLink(o, counts) then 1 else 0)
    ensures WantsResultsLink(o) ==> c.actions[0] == OpenUrl(o.linkToResultsText, o.linkToResultsUrl.value)
    ensures WantsFailureLink(o, counts) ==>
      c.actions[|c.actions| - 1] == OpenUrl(o.linkTextOnFailure, o.linkUrlOnFailure.value)
    ensures forall i :: 0 <= i < |c.actions| ==> c.actions[i].url != ""
    ensures c.version == PowerAutomateVersion <==> o.webhookType == Some(PowerAutomate)
    ensures o.webhookType != Some(PowerAutomate) ==> c.version == Constants.TemplateVersion
  {
    var base := Constants.BaseAdaptiveCard();
    var table := baseTable.(rows := baseTable.rows + summary);
    var container := ResultsContainer(
      o.title, h.getNotificationTitle(counts), h.getNotificationColor(counts),
      h.getNotificationBackground(counts), table);
    var withTable := base.(body := base.body + [container]);
    assert |withTable.body| == 7 && withTable.body[..6] == base.body && withTable.body[6] == container;
    assert withTable.actions == [] && withTable.msteams == MsTeams("Full", None);
    var withMention := AddMention(withTable, counts, MentionDataFor(h, o, counts));
    assert withMention.body[..6] == base.body && withMention.body[6] == container;
    var withActions := AddActions(withMention, o, counts);
    WithVersion(withActions, o.webhookType)
  }

  /**
   * The whole decision. Guards apply in order: a missing URL, then an invalid
   * URL, then a missing suite, then a `shouldRun` veto, then a successful run
   * without `notifyOnSuccess`; each yields its own outcome and no card. Otherwise
   * the card built from the suite's counts is delivered.
   */
  function Process<S>(h: Helpers<S>, o: Options<S>, suite: Option<S>, baseTable: Table): (r: Outcome)
    ensures r.NoWebhookUrl? <==> !Truthy(o.webhookUrl)
    ensures r.InvalidWebhookUrl? <==>
      Truthy(o.webhookUrl) && !h.validateWebhookUrl(o.webhookUrl.value, o.webhookType)
    ensures r.NoSuite? <==> UrlAccepted(h, o) && suite.None?
    ensures r.NotRun? <==>
      UrlAccepted(h, o) && suite.Some? && o.shouldRun.Some? && !o.shouldRun.value(suite.value)
    ensures r.NothingFailed? <==>
      Runs(h, o, suite) && h.getTotalStatus(suite.value).failed == 0 && !o.notifyOnSuccess
    ensures r.Deliver? <==>
      Runs(h, o, suite) && (h.getTotalStatus(suite.value).failed != 0 || o.notifyOnSuccess)
    ensures r.Deliver? ==>
      var counts := h.getTotalStatus(suite.value);
      r.card == BuildCard(h, o, counts, SummaryRows(counts, h.countAllTests(suite.value)), baseTable)
  {
    if !Truthy(o.webhookUrl) then NoWebhookUrl
    else if !h.validateWebhookUrl(o.webhookUrl.value, o.webhookType) then InvalidWebhookUrl
    else if suite.None? then NoSuite
    else if o.shouldRun.Some? && !o.shouldRun.value(suite.value) then NotRun
    else
      var counts := h.getTotalStatus(suite.value);
      if counts.failed == 0 && !o.notifyOnSuccess then NothingFailed
      else Deliver(BuildCard(h, o, counts, SummaryRows(counts, h.countAllTests(suite.value)), baseTable))
  }
}
