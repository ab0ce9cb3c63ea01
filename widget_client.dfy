/**
  The embeddable chat widget as a state machine: its merged configuration, the open/closed and
  typing flags, the input box, the lines shown in the message pane and the send button; the send
  guard, the reply selection, and the page-level auto-initialisation that creates at most one
  widget.
*/
module WidgetClient {
  import opened Wrappers
  import Text

  // ---------------------------------------------------------------------------------------------
  // configuration

  /** One key of a configuration object: missing, present with `null`, or present with a string. */
  datatype Attr = Absent | Null | Str(s: string)

  /** The configuration object handed to the constructor. */
  datatype ConfigInput = ConfigInput(
    agentId: Attr, apiUrl: Attr, theme: Attr, primaryColor: Attr, position: Attr,
    welcomeMessage: Attr, placeholder: Attr, title: Attr, subtitle: Attr)

  /** The merged configuration; `None` is a `null` the caller supplied. */
  datatype WidgetConfig = WidgetConfig(
    agentId: Option<string>, apiUrl: Option<string>, theme: Option<string>, primaryColor: Option<string>,
    position: Option<string>, welcomeMessage: Option<string>, placeholder: Option<string>,
    title: Option<string>, subtitle: Option<string>)

  /** `{ key: config.key || default, ...config }` for one key: the spread puts back every key the
      caller supplied, whatever its value, so the default only fills a missing key. */
  function Pick(a: Attr, default: string): (r: Option<string>)
    ensures a.Absent? ==> r == Some(default)
    ensures a.Null? ==> r.None?
    ensures a.Str? ==> r == Some(a.s)
  {
    match a
    case Absent => Some(default)
    case Null => None
    case Str(s) => Some(s)
  }

  function MergeConfig(c: ConfigInput): WidgetConfig {
    WidgetConfig(
      Pick(c.agentId, ""),
      Pick(c.apiUrl, "http://localhost:5001/api"),
      Pick(c.theme, "light"),
      Pick(c.primaryColor, "#3b82f6"),
      Pick(c.position, "bottom-right"),
      Pick(c.welcomeMessage, "Hello! How can I help you today?"),
      Pick(c.placeholder, "Type your message..."),
      Pick(c.title, "Support Chat"),
      Pick(c.subtitle, "We're here to help"))
  }

  /** A merged configuration written back as an input object with every key present. */
  function AsInput(w: WidgetConfig): ConfigInput {
    var put := (v: Option<string>) => if v.Some? then Str(v.value) else Null;
    ConfigInput(put(w.agentId), put(w.apiUrl), put(w.theme), put(w.primaryColor), put(w.position),
                put(w.welcomeMessage), put(w.placeholder), put(w.title), put(w.subtitle))
  }

  /** Merging is a projection: a configuration that already has every key comes back unchanged,
      so merging a merged configuration again changes nothing. */
  lemma MergeIdempotent(c: ConfigInput)
    ensures MergeConfig(AsInput(MergeConfig(c))) == MergeConfig(c)
  {
  }

  /** A supplied empty title is kept as "" rather than replaced by the default. */
  lemma PresentEmptyKeyWins(c: ConfigInput)
    requires c.title == Str("")
    ensures MergeConfig(c).title == Some("")
  {
  }

  /** The `data-*` attributes of the widget's script tag; `getAttribute` gives `null` for a missing
      one, and those keys are deleted. */
  function FromAttribute(attrs: map<string, string>, name: string): (a: Attr)
    ensures a != Null
    ensures a.Absent? <==> name !in attrs
  {
    if name in attrs then Str(attrs[name]) else Absent
  }

  function ScriptConfig(attrs: map<string, string>): (c: ConfigInput)
    ensures NoNulls(c)
  {
    ConfigInput(
      FromAttribute(attrs, "data-agent-id"), FromAttribute(attrs, "data-api-url"),
      FromAttribute(attrs, "data-theme"), FromAttribute(attrs, "data-primary-color"),
      FromAttribute(attrs, "data-position"), FromAttribute(attrs, "data-welcome-message"),
      FromAttribute(attrs, "data-placeholder"), FromAttribute(attrs, "data-title"),
      FromAttribute(attrs, "data-subtitle"))
  }

  predicate NoNulls(c: ConfigInput) {
    c.agentId != Null && c.apiUrl != Null && c.theme != Null && c.primaryColor != Null
    && c.position != Null && c.welcomeMessage != Null && c.placeholder != Null
    && c.title != Null && c.subtitle != Null
  }

  /** A configuration without nulls merges to one without nulls. */
  lemma ScriptConfigHasNoNulls(attrs: map<string, string>)
    ensures var w := MergeConfig(ScriptConfig(attrs));
            w.agentId.Some? && w.apiUrl.Some? && w.theme.Some? && w.primaryColor.Some? && w.position.Some?
            && w.welcomeMessage.Some? && w.placeholder.Some? && w.title.Some? && w.subtitle.Some?
  {
  }

  // ---------------------------------------------------------------------------------------------
  // the widget

  datatype LineKind = UserLine | BotLine | SystemLine

  /** One line of the message pane. */
  datatype Line = Line(text: string, kind: LineKind)

  /** The body posted to `/chat/message`. */
  datatype ChatPost = ChatPost(agentId: Option<string>, message: string, sessionId: string)

  /** How the `fetch` ended: a network failure, a non-2xx status or unparsable JSON, or a parsed
      body with its `success` flag, `data.message` and `response` fields. */
  datatype ApiOutcome = Failed | Answered(success: bool, dataMessage: Option<string>, response: Option<string>)

  const ProcessApology := "Sorry, I couldn't process that request."
  const ConnectionApology := "Sorry, I'm having trouble connecting. Please try again."

  /** The bot line for an outcome: `data.data.message` on success, else `data.response`, else the
      processing apology; any failure gives the connection apology. */
  function ReplyText(o: ApiOutcome): (t: string)
    ensures o.Failed? ==> t == ConnectionApology
    ensures o.Answered? && o.success && Truthy(o.dataMessage) ==> t == o.dataMessage.value
    ensures o.Answered? && !(o.success && Truthy(o.dataMessage)) && Truthy(o.response) ==> t == o.response.value
    ensures o.Answered? && !(o.success && Truthy(o.dataMessage)) && !Truthy(o.response) ==> t == ProcessApology
  {
    match o
    case Failed => ConnectionApology
    case Answered(success, dataMessage, response) =>
      if success && Truthy(dataMessage) then dataMessage.value
      else if Truthy(response) then response.value
      else ProcessApology
  }

  /** The reply is never empty: every branch yields a non-empty text. */
  lemma ReplyNonEmpty(o: ApiOutcome)
    ensures ReplyText(o) != ""
  {
  }

  class LyzrWidget {
    var config: WidgetConfig
    var isOpen: bool
    var isTyping: bool
    /** The lines appended to the message pane (the welcome line of the markup is not counted). */
    var log: seq<Line>
    /** The text box. */
    var input: string
    var sendDisabled: bool
    /** The typing indicator is shown. */
    var indicator: bool
    var sessionId: string
    /** The body of the request in flight, if any. */
    var inFlight: Option<ChatPost>

    /** The send button and the typing indicator follow the typing flag, and a request is in flight
        exactly while typing. */
    ghost predicate Valid()
      reads this
    {
      sendDisabled == isTyping && indicator == isTyping && (inFlight.Some? <==> isTyping)
    }

    /** `new LyzrWidget(config)`; `sessionId` is the generated `session-<time>-<random>` id. */
    constructor (c: ConfigInput, sessionId: string)
      ensures Valid()
      ensures config == MergeConfig(c) && this.sessionId == sessionId
      ensures !isOpen && !isTyping && log == [] && input == "" && inFlight.None?
    {
      config := MergeConfig(c);
      isOpen := false;
      isTyping := false;
      log := [];
      input := "";
      sendDisabled := false;
      indicator := false;
      this.sessionId := sessionId;
      inFlight := None;
    }

    method OpenChat()
      modifies this
      ensures isOpen
      ensures isTyping == old(isTyping) && log == old(log) && input == old(input)
      ensures sendDisabled == old(sendDisabled) && indicator == old(indicator) && inFlight == old(inFlight)
      ensures config == old(config) && sessionId == old(sessionId)
    {
      isOpen := true;
    }

    method CloseChat()
      modifies this
      ensures !isOpen
      ensures isTyping == old(isTyping) && log == old(log) && input == old(input)
      ensures sendDisabled == old(sendDisabled) && indicator == old(indicator) && inFlight == old(inFlight)
      ensures config == old(config) && sessionId == old(sessionId)
    {
      isOpen := false;
    }

    method ToggleChat()
      modifies this
      ensures isOpen == !old(isOpen)
      ensures isTyping == old(isTyping) && log == old(log) && input == old(input)
      ensures sendDisabled == old(sendDisabled) && indicator == old(indicator) && inFlight == old(inFlight)
      ensures config == old(config) && sessionId == old(sessionId)
    {
      if isOpen {
        CloseChat();
      } else {
        OpenChat();
      }
    }

    /** The user typing into the box. */
    method SetInput(text: string)
      modifies this
      ensures input == text
      ensures isOpen == old(isOpen) && isTyping == old(isTyping) && log == old(log)
      ensures sendDisabled == old(sendDisabled) && indicator == old(indicator) && inFlight == old(inFlight)
      ensures config == old(config) && sessionId == old(sessionId)
    {
      input := text;
    }

    /** `handleSendMessage` and the synchronous start of `sendToAPI`: nothing happens for blank input
        or while a send is in flight; otherwise the box is cleared, the trimmed text is shown as a
        user line, and the request goes out with the typing flag raised and the button disabled. */
    method HandleSendMessage()
      requires Valid()
      modifies this
      ensures Valid()
      ensures config == old(config) && sessionId == old(sessionId) && isOpen == old(isOpen)
      ensures Text.Trim(old(input)) == "" || old(isTyping) ==>
                log == old(log) && input == old(input) && isTyping == old(isTyping) && inFlight == old(inFlight)
      ensures Text.Trim(old(input)) != "" && !old(isTyping) ==>
                input == "" && log == old(log) + [Line(Text.Trim(old(input)), UserLine)]
                && isTyping && inFlight == Some(ChatPost(config.agentId, Text.Trim(old(input)), sessionId))
    {
      var message := Text.Trim(input);
      if message != "" && !isTyping {
        input := "";
        log := log + [Line(message, UserLine)];
        isTyping := true;
        sendDisabled := true;
        indicator := true;
        inFlight := Some(ChatPost(config.agentId, message, sessionId));
      }
    }

    /** The rest of `sendToAPI` once the request settles: the indicator goes, exactly one bot line
        is shown, and in `finally` the typing flag drops and the button is enabled again. */
    method CompleteSend(outcome: ApiOutcome)
      requires Valid() && isTyping
      modifies this
      ensures Valid()
      ensures log == old(log) + [Line(ReplyText(outcome), BotLine)]
      ensures !isTyping && !sendDisabled && !indicator && inFlight.None?
      ensures config == old(config) && sessionId == old(sessionId) && isOpen == old(isOpen) && input == old(input)
    {
      indicator := false;
      log := log + [Line(ReplyText(outcome), BotLine)];
      isTyping := false;
      sendDisabled := false;
      inFlight := None;
    }
  }

  // ---------------------------------------------------------------------------------------------
  // auto-initialisation

  /** The page the script runs in: the global configuration, if any, and the single instance. */
  class Page {
    var globalConfig: Option<ConfigInput>
    var instance: LyzrWidget?

    constructor (globalConfig: Option<ConfigInput>)
      ensures this.globalConfig == globalConfig && instance == null
    {
      this.globalConfig := globalConfig;
      instance := null;
    }
  }

  const NoConfig := ConfigInput(Absent, Absent, Absent, Absent, Absent, Absent, Absent, Absent, Absent)

  /** `Object.keys(config).length > 0` */
  predicate HasKeys(c: ConfigInput) {
    c != NoConfig
  }

  /** The configuration the script settles on: the global one when set, else the script tag's
      attributes when the tag is found, else none. */
  function ChosenConfig(global: Option<ConfigInput>, scriptAttrs: Option<map<string, string>>): ConfigInput {
    if global.Some? then global.value
    else if scriptAttrs.Some? then ScriptConfig(scriptAttrs.value)
    else NoConfig
  }

  /** Whether the script creates a widget for this configuration. */
  predicate Launches(c: ConfigInput) {
    HasKeys(c) && c.agentId.Str? && c.agentId.s != ""
  }

  /** A truthy agent id is a key, so the key-count test never decides on its own. */
  lemma AgentIdSuffices(c: ConfigInput)
    ensures Launches(c) <==> c.agentId.Str? && c.agentId.s != ""
  {
  }

  /** The auto-initialiser: a widget is created only for a configuration with a truthy agent id,
      and only when the page has none yet. */
  method AutoInit(page: Page, scriptAttrs: Option<map<string, string>>, sessionId: string)
    modifies page
    ensures page.globalConfig == old(page.globalConfig)
    ensures old(page.instance) != null ==> page.instance == old(page.instance)
    ensures old(page.instance) == null && !Launches(ChosenConfig(page.globalConfig, scriptAttrs)) ==> page.instance == null
    ensures old(page.instance) == null && Launches(ChosenConfig(page.globalConfig, scriptAttrs)) ==>
              page.instance != null && fresh(page.instance)
              && page.instance.config == MergeConfig(ChosenConfig(page.globalConfig, scriptAttrs))
              && page.instance.sessionId == sessionId
              && page.instance.Valid() && !page.instance.isOpen && page.instance.log == []
  {
    var config := ChosenConfig(page.globalConfig, scriptAttrs);
    if Launches(config) {
      if page.instance == null {
        page.instance := new LyzrWidget(config, sessionId);
      }
    }
  }

  /** Running the script twice still leaves one widget: the first one. */
  method AutoInitTwice(page: Page, scriptAttrs: Option<map<string, string>>, s1: string, s2: string)
    modifies page
    ensures old(page.instance) == null && Launches(ChosenConfig(page.globalConfig, scriptAttrs)) ==>
              page.instance != null && page.instance.sessionId == s1
  {
    AutoInit(page, scriptAttrs, s1);
    AutoInit(page, scriptAttrs, s2);
  }
}
