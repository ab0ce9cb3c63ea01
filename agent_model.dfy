/**
  The agent document: the upstream (Lyzr) connection, the widget appearance with its defaults and
  validators, the allowed embedding domains, the activity flag and the usage counters.
*/
module AgentModel {
  import opened Wrappers
  import Text

  datatype Theme = Light | Dark
  datatype Position = BottomRight | BottomLeft | TopRight | TopLeft

  const MaxName := 100
  const MaxDescription := 500
  const MaxWelcome := 200
  const MaxPlaceholder := 100
  const MaxWidgetTitle := 50

  /** The appearance settings as stored. A field is absent when an update replaced the whole
      `widget` object with one that lacked it. */
  datatype WidgetSettings = WidgetSettings(
    theme: Option<Theme>,
    primaryColor: Option<string>,
    position: Option<Position>,
    welcomeMessage: Option<string>,
    placeholder: Option<string>,
    title: Option<string>)

  const NoWidgetSettings := WidgetSettings(None, None, None, None, None, None)

  /** The schema's defaults for the widget fields. */
  const DefaultTheme: Theme := Light
  const DefaultColor := "#3b82f6"
  const DefaultPosition: Position := BottomRight
  const DefaultWelcome := "Hi! How can I help you today?"
  const DefaultPlaceholder := "Type your message..."
  const DefaultWidgetTitle := "Chat Support"

  /** What creating a document does to a (possibly partial) widget object: every absent field gets
      its schema default, every given field is kept. */
  function WithSchemaDefaults(w: WidgetSettings): (r: WidgetSettings)
    ensures r.theme == Some(if w.theme.Some? then w.theme.value else DefaultTheme)
    ensures r.primaryColor == Some(if w.primaryColor.Some? then w.primaryColor.value else DefaultColor)
    ensures r.position == Some(if w.position.Some? then w.position.value else DefaultPosition)
    ensures r.welcomeMessage == Some(if w.welcomeMessage.Some? then w.welcomeMessage.value else DefaultWelcome)
    ensures r.placeholder == Some(if w.placeholder.Some? then w.placeholder.value else DefaultPlaceholder)
    ensures r.title == Some(if w.title.Some? then w.title.value else DefaultWidgetTitle)
  {
    WidgetSettings(
      Some(if w.theme.Some? then w.theme.value else DefaultTheme),
      Some(if w.primaryColor.Some? then w.primaryColor.value else DefaultColor),
      Some(if w.position.Some? then w.position.value else DefaultPosition),
      Some(if w.welcomeMessage.Some? then w.welcomeMessage.value else DefaultWelcome),
      Some(if w.placeholder.Some? then w.placeholder.value else DefaultPlaceholder),
      Some(if w.title.Some? then w.title.value else DefaultWidgetTitle))
  }

  /** The stored spelling of each enum value. */
  function ThemeName(t: Theme): string {
    match t
    case Light => "light"
    case Dark => "dark"
  }

  function PositionName(p: Position): string {
    match p
    case BottomRight => "bottom-right"
    case BottomLeft => "bottom-left"
    case TopRight => "top-right"
    case TopLeft => "top-left"
  }

  datatype LyzrConfig = LyzrConfig(agentId: string, apiEndpoint: string, apiKey: string)

  /** Usage counters; `lastUsed` and `lastSeen` are timestamps in milliseconds. */
  datatype AgentAnalytics = AgentAnalytics(
    totalChats: int,
    totalMessages: int,
    pageViews: int,
    lastUsed: Option<int>,
    lastSeen: Option<int>)

  const NewAgentAnalytics := AgentAnalytics(0, 0, 0, None, None)

  /** One uploaded question/answer pair. */
  datatype TrainingItem = TrainingItem(
    question: string,
    answer: string,
    category: Option<string>,
    tags: Option<seq<string>>,
    uploadedAt: int,
    uploadedBy: Id)

  /** The optimisation settings object, stored as given. */
  datatype OptimizationSettings = OptimizationSettings(
    enableAutoLearning: Option<bool>,
    confidenceThreshold: Option<real>,
    responseTimeTarget: Option<real>,
    categories: Option<seq<string>>,
    keywords: Option<seq<string>>,
    fallbackMessage: Option<string>)

  datatype Agent = Agent(
    name: string,
    description: Option<string>,
    owner: Id,
    lyzrConfig: LyzrConfig,
    widget: WidgetSettings,
    domains: seq<string>,
    isActive: bool,
    analytics: AgentAnalytics,
    trainingData: seq<TrainingItem>,
    lastTrainingUpdate: Option<int>,
    optimization: Option<OptimizationSettings>,
    createdAt: int,
    updatedAt: int)

  // ---------------------------------------------------------------------------------------------
  // the colour validator: ^#([A-Fa-f0-9]{6}|[A-Fa-f0-9]{3})$

  predicate IsHexDigit(c: char) {
    '0' <= c <= '9' || 'a' <= c <= 'f' || 'A' <= c <= 'F'
  }

  /** A '#' followed by exactly three or exactly six hexadecimal digits of either case. */
  predicate IsHexColor(s: string) {
    (|s| == 4 || |s| == 7) && s[0] == '#' && forall k :: 1 <= k < |s| ==> IsHexDigit(s[k])
  }

  /** The pattern ignores case: a colour is valid exactly when its lower-case spelling is. */
  lemma HexColorCaseInsensitive(s: string)
    ensures IsHexColor(Text.ToLower(s)) <==> IsHexColor(s)
  {
    var t := Text.ToLower(s);
    forall k | 0 <= k < |s| ensures t[k] == Text.LowerChar(s[k]) {
      Text.ToLowerAt(s, k);
    }
  }

  // ---------------------------------------------------------------------------------------------
  // the domain validator: ^([a-z0-9]+(-[a-z0-9]+)*\.)+[a-z]{2,}$

  predicate IsLowerAlnum(c: char) {
    'a' <= c <= 'z' || '0' <= c <= '9'
  }

  /** `[a-z0-9]+(-[a-z0-9]+)*`: runs of lower-case letters and digits joined by single hyphens. */
  predicate IsLabel(l: string) {
    var runs := Text.Split(l, '-');
    forall i :: 0 <= i < |runs| ==> |runs[i]| > 0 && forall k :: 0 <= k < |runs[i]| ==> IsLowerAlnum(runs[i][k])
  }

  /** `[a-z]{2,}`: the final label, two or more lower-case letters. */
  predicate IsTopLabel(l: string) {
    |l| >= 2 && forall k :: 0 <= k < |l| ==> 'a' <= l[k] <= 'z'
  }

  /** The whole pattern: one or more labels each followed by a dot, then a top label. Since no label
      contains a dot, the dots split the name into exactly these parts. */
  predicate IsDomain(s: string) {
    var parts := Text.Split(s, '.');
    |parts| >= 2
    && (forall i :: 0 <= i < |parts| - 1 ==> IsLabel(parts[i]))
    && IsTopLabel(parts[|parts| - 1])
  }

  /** The characters a domain may contain. */
  predicate IsDomainChar(c: char) {
    IsLowerAlnum(c) || c == '-' || c == '.'
  }

  lemma LabelChars(l: string)
    requires IsLabel(l)
    ensures forall c :: c in l ==> IsLowerAlnum(c) || c == '-'
  {
    var runs := Text.Split(l, '-');
    Text.JoinSplit(l, '-');
    forall c | c in l ensures IsLowerAlnum(c) || c == '-' {
      Text.JoinChars(runs, '-', c);
      if c != '-' {
        var i :| 0 <= i < |runs| && c in runs[i];
        var k :| 0 <= k < |runs[i]| && runs[i][k] == c;
      }
    }
  }

  /** A valid domain holds only lower-case letters, digits, hyphens and dots; in particular '*' and
      any upper-case letter are rejected. */
  lemma DomainChars(s: string)
    requires IsDomain(s)
    ensures forall c :: c in s ==> IsDomainChar(c)
  {
    var parts := Text.Split(s, '.');
    Text.JoinSplit(s, '.');
    forall c | c in s ensures IsDomainChar(c) {
      Text.JoinChars(parts, '.', c);
      if c != '.' {
        var i :| 0 <= i < |parts| && c in parts[i];
        if i < |parts| - 1 {
          LabelChars(parts[i]);
        } else {
          var k :| 0 <= k < |parts[i]| && parts[i][k] == c;
        }
      }
    }
  }

  /** Conversely, labels followed by a top label and joined by dots always form a valid domain. */
  lemma DomainFromLabels(labels: seq<string>, top: string)
    requires |labels| >= 1
    requires forall i :: 0 <= i < |labels| ==> IsLabel(labels[i])
    requires IsTopLabel(top)
    ensures IsDomain(Text.Join(labels + [top], '.'))
  {
    var parts := labels + [top];
    NoDotInParts(labels, top);
    Text.SplitJoin(parts, '.');
    assert forall i :: 0 <= i < |parts| - 1 ==> parts[i] == labels[i];
  }

  lemma NoDotInParts(labels: seq<string>, top: string)
    requires forall i :: 0 <= i < |labels| ==> IsLabel(labels[i])
    requires IsTopLabel(top)
    ensures forall i :: 0 <= i < |labels| + 1 ==> '.' !in (labels + [top])[i]
  {
    forall i | 0 <= i < |labels| + 1 ensures '.' !in (labels + [top])[i] {
      if i < |labels| {
        LabelChars(labels[i]);
      }
    }
  }

  // ---------------------------------------------------------------------------------------------
  // document invariants

  /** The widget fields the validators check: colour pattern and length bounds. A `match` validator
      lets the empty string through. */
  predicate WidgetValid(w: WidgetSettings) {
    (w.primaryColor.Some? ==> w.primaryColor.value == "" || IsHexColor(w.primaryColor.value))
    && (w.welcomeMessage.Some? ==> |w.welcomeMessage.value| <= MaxWelcome)
    && (w.placeholder.Some? ==> |w.placeholder.value| <= MaxPlaceholder)
    && (w.title.Some? ==> |w.title.value| <= MaxWidgetTitle)
  }

  /** Each listed domain matches the pattern or is empty (which `match` does not test). */
  predicate DomainsValid(domains: seq<string>) {
    forall i :: 0 <= i < |domains| ==> domains[i] == "" || IsDomain(domains[i])
  }

  /** Everything the schema checks when an agent is validated. */
  predicate AgentValid(a: Agent) {
    0 < |a.name| <= MaxName
    && (a.description.Some? ==> |a.description.value| <= MaxDescription)
    && a.lyzrConfig.agentId != "" && a.lyzrConfig.apiEndpoint != "" && a.lyzrConfig.apiKey != ""
    && WidgetValid(a.widget)
    && DomainsValid(a.domains)
  }

  /** The unique index on `lyzrConfig.agentId`: no two agents share an upstream agent id. */
  predicate UniqueLyzrIds(agents: map<Id, Agent>) {
    forall a, b :: a in agents && b in agents && a != b ==>
      agents[a].lyzrConfig.agentId != agents[b].lyzrConfig.agentId
  }

  /** The schema's defaults are themselves valid. */
  lemma DefaultsValid()
    ensures WidgetValid(WithSchemaDefaults(NoWidgetSettings))
    ensures IsHexColor(DefaultColor)
  {
  }
}
