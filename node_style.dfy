/**
 * How a node box is coloured and which icon it shows: a lookup of the
 * node's type in the style table, falling back to the `default` entry, and
 * a lookup of the style's colour in the class table, falling back to gray.
 */
module NodeStyle {

  datatype Icon = PaperAirplane | CalendarDays | GlobeAlt | CodeBracket | Cog6Tooth | Share
                | MagnifyingGlass | Sparkles | ChatBubbleLeftRight

  datatype Style = Style(icon: Icon, color: string)

  /** `NODE_STYLE_MAP`: the style of each known node type, plus `default`. */
  const NodeStyleMap: map<string, Style> := map[
    "n8n-nodes-base.manualTrigger" := Style(PaperAirplane, "green"),
    "n8n-nodes-base.cron" := Style(CalendarDays, "green"),
    "n8n-nodes-base.executeWorkflowTrigger" := Style(PaperAirplane, "green"),
    "n8n-nodes-base.googleCalendar" := Style(CalendarDays, "blue"),
    "n8n-nodes-base.microsoftOutlook" := Style(CalendarDays, "blue"),
    "n8n-nodes-base.httpRequest" := Style(GlobeAlt, "blue"),
    "n8n-nodes-base.code" := Style(CodeBracket, "yellow"),
    "n8n-nodes-base.set" := Style(Cog6Tooth, "yellow"),
    "n8n-nodes-base.merge" := Style(Share, "yellow"),
    "n8n-nodes-base.respondToWebhook" := Style(PaperAirplane, "purple"),
    "n8n-nodes-base.executeWorkflow" := Style(Cog6Tooth, "indigo"),
    "@n8n/n8n-nodes-langchain.tool" := Style(MagnifyingGlass, "cyan"),
    "@n8n/n8n-nodes-langchain.agent" := Style(Sparkles, "fuchsia"),
    "n8n-nodes-base.wait" := Style(ChatBubbleLeftRight, "purple"),
    "default" := Style(Cog6Tooth, "gray")
  ]

  /** The border, background and text classes of each colour. */
  const ColorClasses: map<string, string> := map[
    "green" := "border-green-500/50 bg-green-900/30 text-green-300",
    "blue" := "border-blue-500/50 bg-blue-900/30 text-blue-300",
    "yellow" := "border-yellow-500/50 bg-yellow-900/30 text-yellow-300",
    "purple" := "border-purple-500/50 bg-purple-900/30 text-purple-300",
    "indigo" := "border-indigo-500/50 bg-indigo-900/30 text-indigo-300",
    "cyan" := "border-cyan-500/50 bg-cyan-900/30 text-cyan-300",
    "fuchsia" := "border-fuchsia-500/50 bg-fuchsia-900/30 text-fuchsia-300",
    "gray" := "border-gray-500/50 bg-gray-900/30 text-gray-300"
  ]

  /** `NODE_STYLE_MAP[type] || NODE_STYLE_MAP['default']`. */
  function StyleFor(nodeType: string): (st: Style)
    ensures nodeType in NodeStyleMap ==> st == NodeStyleMap[nodeType]
    ensures nodeType !in NodeStyleMap ==> st == Style(Cog6Tooth, "gray")
  {
    if nodeType in NodeStyleMap then NodeStyleMap[nodeType] else NodeStyleMap["default"]
  }

  /** `colorClasses[color] || colorClasses['gray']`. */
  function ColorClassFor(color: string): (c: string)
    ensures color in ColorClasses ==> c == ColorClasses[color]
    ensures color !in ColorClasses ==> c == ColorClasses["gray"]
  {
    if color in ColorClasses then ColorClasses[color] else ColorClasses["gray"]
  }

  /** Every colour the style table uses has its own classes. */
  lemma EveryStyleColorHasClasses()
    ensures forall t :: t in NodeStyleMap ==> NodeStyleMap[t].color in ColorClasses
  {
    forall t | t in NodeStyleMap ensures NodeStyleMap[t].color in ColorClasses {
      var c := NodeStyleMap[t].color;
      assert c in {"green", "blue", "yellow", "purple", "indigo", "cyan", "fuchsia", "gray"};
    }
  }

  /** So every node, whatever its type, is drawn with the classes of its own
      style's colour: the gray class fallback is never taken. */
  lemma NodeClassesFromOwnStyle(nodeType: string)
    ensures StyleFor(nodeType).color in ColorClasses
    ensures ColorClassFor(StyleFor(nodeType).color) == ColorClasses[StyleFor(nodeType).color]
  {
    EveryStyleColorHasClasses();
  }
}
