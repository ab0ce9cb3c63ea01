/**
  The dashboard's agent creation form: its field schema and defaults, the parsing of the
  comma-separated domain list, the request body built from the form, and the submitting flag held
  around the request.
*/
module CreateAgentModal {
  import opened Wrappers
  import opened AgentModel
  import AgentController
  import Text
  import Lists

  // ---------------------------------------------------------------------------------------------
  // domains

  /** `parts.map(d => d.trim())` */
  function TrimEach(parts: seq<string>): (r: seq<string>)
    ensures |r| == |parts| && forall i :: 0 <= i < |parts| ==> r[i] == Text.Trim(parts[i])
    decreases |parts|
  {
    if parts == [] then [] else [Text.Trim(parts[0])] + TrimEach(parts[1..])
  }

  /** `data.domains ? data.domains.split(',').map(d => d.trim()).filter(Boolean) : []` */
  function ParseDomains(input: Option<string>): (r: seq<string>)
    ensures !Truthy(input) ==> r == []
    ensures forall d :: d in r ==> d != ""
  {
    if Truthy(input) then Lists.Filter(TrimEach(Text.Split(input.value, ',')), (d: string) => d != "")
    else []
  }

  /** A clean domain entry: non-empty, no comma, no white space at either end. */
  predicate CleanEntry(d: string) {
    d != "" && ',' !in d && Text.Trim(d) == d
  }

  /** A comma-free piece that does not trim to nothing trims to a clean entry. */
  lemma TrimmedPieceClean(p: string)
    requires ',' !in p && Text.Trim(p) != ""
    ensures CleanEntry(Text.Trim(p))
  {
    Text.TrimProperties(p);
    Text.TrimIdempotent(p);
  }

  /** Trimming comma-free pieces leaves clean entries and empty strings only. */
  lemma TrimEachClean(parts: seq<string>)
    requires forall k :: 0 <= k < |parts| ==> ',' !in parts[k]
    ensures forall d :: d in TrimEach(parts) && d != "" ==> CleanEntry(d)
  {
    var trimmed := TrimEach(parts);
    forall d | d in trimmed && d != "" ensures CleanEntry(d) {
      var i :| 0 <= i < |trimmed| && trimmed[i] == d;
      TrimmedPieceClean(parts[i]);
    }
  }

  /** Every parsed domain is a clean entry. */
  lemma ParsedDomainsClean(input: Option<string>)
    ensures forall d :: d in ParseDomains(input) ==> CleanEntry(d)
  {
    if Truthy(input) {
      var parts := Text.Split(input.value, ',');
      Text.SplitPiecesFree(input.value, ',');
      TrimEachClean(parts);
      assert ParseDomains(input) == Lists.Filter(TrimEach(parts), (d: string) => d != "");
    }
  }

  /** A filter that every element passes keeps the list. */
  lemma {:induction false} FilterKeepsAll(ds: seq<string>)
    requires forall i :: 0 <= i < |ds| ==> ds[i] != ""
    ensures Lists.Filter(ds, (d: string) => d != "") == ds
    decreases |ds|
  {
    if ds != [] {
      FilterKeepsAll(ds[1..]);
      assert ds == [ds[0]] + ds[1..];
    }
  }

  lemma {:induction false} JoinStartsWith(parts: seq<string>, sep: char)
    requires |parts| >= 1
    ensures |Text.Join(parts, sep)| >= |parts[0]|
    decreases |parts|
  {
  }

  /** Clean entries are their own trims. */
  lemma TrimEachKeepsClean(ds: seq<string>)
    requires forall i :: 0 <= i < |ds| ==> CleanEntry(ds[i])
    ensures TrimEach(ds) == ds
  {
  }

  /** Typing a list of clean entries separated by commas gives that list back. */
  lemma ParseDomainsRoundTrip(ds: seq<string>)
    requires |ds| >= 1 && forall i :: 0 <= i < |ds| ==> CleanEntry(ds[i])
    ensures ParseDomains(Some(Text.Join(ds, ','))) == ds
  {
    var s := Text.Join(ds, ',');
    JoinStartsWith(ds, ',');
    assert Truthy(Some(s));
    assert forall k :: 0 <= k < |ds| ==> ',' !in ds[k];
    Text.SplitJoin(ds, ',');
    TrimEachKeepsClean(ds);
    FilterKeepsAll(ds);
    assert ParseDomains(Some(s)) == Lists.Filter(TrimEach(Text.Split(s, ',')), (d: string) => d != "");
  }

  // ---------------------------------------------------------------------------------------------
  // the form

  /** The form's values, with theme and position picked from their select boxes. */
  datatype CreateAgentForm = CreateAgentForm(
    name: string, description: string, lyzrAgentId: string, apiEndpoint: string, apiKey: string,
    welcomeMessage: string, title: string, placeholder: string, primaryColor: string,
    theme: Theme, position: Position, domains: Option<string>)

  const FormMaxName := 50
  const FormMaxDescription := 200

  /** `createAgentSchema` of the form as written: non-empty fields, a name of at most 50 and a
      description of at most 200 characters, a URL endpoint. */
  predicate FormSchemaAsWritten(f: CreateAgentForm) {
    1 <= |f.name| <= FormMaxName
    && 1 <= |f.description| <= FormMaxDescription
    && |f.lyzrAgentId| >= 1
    && AgentController.IsUrl(f.apiEndpoint)
    && |f.apiKey| >= 1
    && |f.welcomeMessage| >= 1
    && |f.title| >= 1
    && |f.placeholder| >= 1
    && |f.primaryColor| >= 1
  }

  /** The form schema brought in line with the server's: a name of at least two characters, a hex
      colour, and the server's bounds on title, welcome message and placeholder. */
  predicate FormSchema(f: CreateAgentForm) {
    FormSchemaAsWritten(f)
    && |f.name| >= 2
    && IsHexColor(f.primaryColor)
    && |f.welcomeMessage| <= MaxWelcome
    && |f.placeholder| <= MaxPlaceholder
    && |f.title| <= MaxWidgetTitle
  }

  /** The request body: the three upstream fields under `lyzrConfig`, the six appearance fields
      under `widget`, the parsed domains, and `isActive` always true (the server's schema drops it). */
  datatype AgentPayload = AgentPayload(request: AgentController.AgentInput, isActive: bool)

  function PayloadOf(f: CreateAgentForm): (p: AgentPayload)
    ensures p.isActive
  {
    AgentPayload(
      AgentController.AgentInput(
        name := Some(f.name),
        description := Some(f.description),
        lyzrConfig := Some(AgentController.LyzrInput(Some(f.lyzrAgentId), Some(f.apiEndpoint), Some(f.apiKey))),
        widget := Some(WidgetSettings(Some(f.theme), Some(f.primaryColor), Some(f.position),
                                      Some(f.welcomeMessage), Some(f.placeholder), Some(f.title))),
        domains := Some(ParseDomains(f.domains))),
      true)
  }

  /** The corrected form accepts exactly what both the form as written and the server's schema
      accept. */
  lemma FormSchemaMatchesServer(f: CreateAgentForm)
    ensures FormSchema(f) <==> FormSchemaAsWritten(f) && AgentController.ValidAgentInput(PayloadOf(f).request)
  {
    var r := PayloadOf(f).request;
    var w := WidgetSettings(Some(f.theme), Some(f.primaryColor), Some(f.position),
                            Some(f.welcomeMessage), Some(f.placeholder), Some(f.title));
    assert r.name == Some(f.name) && r.description == Some(f.description) && r.widget == Some(w);
    assert r.lyzrConfig == Some(AgentController.LyzrInput(Some(f.lyzrAgentId), Some(f.apiEndpoint), Some(f.apiKey)));
    assert AgentController.ValidWidgetInput(w) <==>
             IsHexColor(f.primaryColor) && |f.welcomeMessage| <= MaxWelcome
             && |f.placeholder| <= MaxPlaceholder && |f.title| <= MaxWidgetTitle;
  }

  /** A one-letter name passes the form as written and is refused by the server with 400. */
  const ShortNameForm := CreateAgentForm(
    "A", "Support", "agent-1", "https://api.lyzr.ai", "key", "Hello!", "Support Chat",
    "Type your message...", "#3B82F6", Light, BottomRight, None)

  lemma AsWrittenAcceptsRefusedName()
    ensures FormSchemaAsWritten(ShortNameForm)
    ensures !AgentController.ValidAgentInput(PayloadOf(ShortNameForm).request)
    ensures !FormSchema(ShortNameForm)
  {
    var e := ShortNameForm.apiEndpoint;
    assert e[5] == ':' && forall j :: 1 <= j < 5 ==> AgentController.IsSchemeChar(e[j]);
  }

  /** What a submitted form turns into on the server: the agent `createAgent` stores holds the
      upstream settings and the appearance fields exactly as entered, the parsed domains, and is
      active. */
  lemma PayloadStored(f: CreateAgentForm, owner: Id, now: int)
    requires FormSchema(f)
    ensures AgentController.ValidAgentInput(PayloadOf(f).request)
    ensures var a := AgentController.NewAgent(PayloadOf(f).request, owner, now);
            a.lyzrConfig == LyzrConfig(f.lyzrAgentId, f.apiEndpoint, f.apiKey)
            && a.widget == WidgetSettings(Some(f.theme), Some(f.primaryColor), Some(f.position),
                                          Some(f.welcomeMessage), Some(f.placeholder), Some(f.title))
            && a.domains == ParseDomains(f.domains)
            && a.isActive
  {
    FormSchemaMatchesServer(f);
  }

  // ---------------------------------------------------------------------------------------------
  // defaults

  const FormDefaultTheme: Theme := Light
  const FormDefaultPosition: Position := BottomRight
  const FormDefaultColor := "#3B82F6"
  const FormDefaultWelcome := "Hello! How can I help you today?"
  const FormDefaultTitle := "Support Chat"
  const FormDefaultPlaceholder := "Type your message..."

  /** A fresh form: the six appearance fields preset, the rest as the user types them. */
  function FreshForm(name: string, description: string, lyzrAgentId: string, apiEndpoint: string,
                     apiKey: string, domains: Option<string>): CreateAgentForm
  {
    CreateAgentForm(name, description, lyzrAgentId, apiEndpoint, apiKey, FormDefaultWelcome,
                    FormDefaultTitle, FormDefaultPlaceholder, FormDefaultColor,
                    FormDefaultTheme, FormDefaultPosition, domains)
  }

  /** Leaving the appearance fields at their presets never trips a check on either side: the form
      passes exactly when its typed fields do, and the preset colour is the server's default in
      upper case. */
  lemma FreshFormPasses(name: string, description: string, lyzrAgentId: string, apiEndpoint: string,
                        apiKey: string, domains: Option<string>)
    ensures FormSchema(FreshForm(name, description, lyzrAgentId, apiEndpoint, apiKey, domains))
            <==> 2 <= |name| <= FormMaxName && 1 <= |description| <= FormMaxDescription
                 && |lyzrAgentId| >= 1 && AgentController.IsUrl(apiEndpoint) && |apiKey| >= 1
    ensures Text.ToLower(FormDefaultColor) == DefaultColor
  {
    assert IsHexColor(FormDefaultColor);
    var lower := Text.ToLower(FormDefaultColor);
    forall k | 0 <= k < 7 ensures lower[k] == DefaultColor[k] {
      Text.ToLowerAt(FormDefaultColor, k);
    }
  }

  // ---------------------------------------------------------------------------------------------
  // submitting

  datatype Toast = Success(text: string) | Failure(text: string)

  /** How the post ended: created, or refused with the body's `error` field if it had one. */
  datatype PostOutcome = Created | Refused(error: Option<string>)

  /** The notice shown when the post settles. */
  function ToastFor(o: PostOutcome): (t: Toast)
    ensures o.Created? <==> t.Success?
    ensures t.text != ""
  {
    match o
    case Created => Success("Agent created successfully!")
    case Refused(error) => Failure(OrElse(error, "Failed to create agent"))
  }

  class Modal {
    var isSubmitting: bool
    /** The request bodies posted so far. */
    var sent: seq<AgentPayload>
    var toast: Option<Toast>
    /** Times the form was reset and the parent told of a new agent. */
    var created: nat

    constructor ()
      ensures !isSubmitting && sent == [] && toast.None? && created == 0
    {
      isSubmitting := false;
      sent := [];
      toast := None;
      created := 0;
    }

    /** `handleSubmit(onSubmit)` up to the post: a form that fails the schema, or a submit while
        the button is disabled, posts nothing; otherwise the body is posted and the flag raised. */
    method Submit(f: CreateAgentForm)
      modifies this
      ensures toast == old(toast) && created == old(created)
      ensures !FormSchema(f) || old(isSubmitting) ==> sent == old(sent) && isSubmitting == old(isSubmitting)
      ensures FormSchema(f) && !old(isSubmitting) ==> sent == old(sent) + [PayloadOf(f)] && isSubmitting
    {
      if isSubmitting || !FormSchema(f) {
        return;
      }
      isSubmitting := true;
      sent := sent + [PayloadOf(f)];
    }

    /** The rest of `onSubmit` once the post settles: one notice, a reset and the parent's callback
        on success, and in `finally` the flag lowered. */
    method Settle(o: PostOutcome)
      requires isSubmitting
      modifies this
      ensures !isSubmitting && sent == old(sent) && toast == Some(ToastFor(o))
      ensures created == old(created) + (if o.Created? then 1 else 0)
    {
      toast := Some(ToastFor(o));
      if o.Created? {
        created := created + 1;
      }
      isSubmitting := false;
    }
  }
}
