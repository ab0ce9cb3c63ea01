/**
  The demo page: the backend URL resolved from the environment and the request, the widget URLs
  built from it, and the substitution of the page template's three placeholders.
*/
module DemoTemplate {
  import opened Wrappers
  import Text

  /** `BACKEND_URL`, `NODE_ENV` and `DEMO_AGENT_ID`. */
  datatype DemoEnv = DemoEnv(backendUrl: Option<string>, nodeEnv: Option<string>, demoAgentId: Option<string>)

  const DefaultDemoAgentId := "6883fec523d48350b2f43f80"
  const WidgetPlaceholder := "{{WIDGET_URL}}"
  const DemoWidgetPlaceholder := "{{DEMO_WIDGET_URL}}"
  const AgentIdPlaceholder := "{{DEMO_AGENT_ID}}"

  /** Hosts served over TLS whatever the request says. */
  predicate HostedTls(host: string) {
    Text.Includes(host, ".onrender.com") || Text.Includes(host, "vercel.app")
  }

  /** Where plain `http://` is upgraded: on onrender, or in production. */
  predicate ForcesHttps(host: string, env: DemoEnv) {
    Text.Includes(host, ".onrender.com") || env.nodeEnv == Some("production")
  }

  /** The backend URL the page points at: `BACKEND_URL` when set, else the detected scheme and the
      host; then an `http://` prefix becomes `https://` where that is forced. */
  function BackendUrlFor(protocol: string, host: string, env: DemoEnv): string {
    var base := if Truthy(env.backendUrl) then env.backendUrl.value
                else (if HostedTls(host) then "https" else protocol) + "://" + host;
    if Text.IsPrefix("http://", base) && ForcesHttps(host, env) then "https://" + base[7..] else base
  }

  /** The resolution as the handler runs it, step by step on one variable. */
  method ResolveBackendUrl(protocol: string, host: string, env: DemoEnv) returns (backendUrl: string)
    ensures backendUrl == BackendUrlFor(protocol, host, env)
  {
    if Truthy(env.backendUrl) {
      backendUrl := env.backendUrl.value;
    } else {
      var detected := if HostedTls(host) then "https" else protocol;
      backendUrl := detected + "://" + host;
    }
    if Text.IsPrefix("http://", backendUrl) && ForcesHttps(host, env) {
      backendUrl := "https://" + backendUrl[7..];
    }
  }

  /** An `https://` URL never starts with `http://`. */
  lemma HttpsIsNotHttp(rest: string)
    ensures !Text.IsPrefix("http://", "https://" + rest)
  {
    assert ("https://" + rest)[4] == 's';
  }

  /** Where HTTPS is forced the URL never starts with `http://`; where it does start so, HTTPS was
      not forced. */
  lemma BackendUrlSecure(protocol: string, host: string, env: DemoEnv)
    ensures ForcesHttps(host, env) ==> !Text.IsPrefix("http://", BackendUrlFor(protocol, host, env))
  {
    var base := if Truthy(env.backendUrl) then env.backendUrl.value
                else (if HostedTls(host) then "https" else protocol) + "://" + host;
    if Text.IsPrefix("http://", base) && ForcesHttps(host, env) {
      HttpsIsNotHttp(base[7..]);
    }
  }

  /** Without `BACKEND_URL`: a TLS host is always reached over https, any other host with the
      request's own scheme unless HTTPS is forced on an `http` request. */
  lemma DetectedUrl(protocol: string, host: string, env: DemoEnv)
    requires !Truthy(env.backendUrl)
    ensures HostedTls(host) ==> BackendUrlFor(protocol, host, env) == "https://" + host
    ensures !HostedTls(host) && protocol == "https" ==> BackendUrlFor(protocol, host, env) == "https://" + host
    ensures !HostedTls(host) && protocol == "http" ==>
              BackendUrlFor(protocol, host, env) == (if ForcesHttps(host, env) then "https" else "http") + "://" + host
  {
    var base := (if HostedTls(host) then "https" else protocol) + "://" + host;
    if HostedTls(host) || protocol == "https" {
      assert base == "https://" + host;
      HttpsIsNotHttp(host);
    } else if protocol == "http" {
      assert base == "http://" + host;
      assert base[7..] == host;
    }
  }

  /** A configured `BACKEND_URL` is used as given, except that a plain `http://` one is upgraded where
      HTTPS is forced. */
  lemma ConfiguredUrl(protocol: string, host: string, env: DemoEnv)
    requires Truthy(env.backendUrl)
    ensures var u := env.backendUrl.value;
            BackendUrlFor(protocol, host, env)
            == if Text.IsPrefix("http://", u) && ForcesHttps(host, env) then "https://" + u[7..] else u
  {
  }

  /** `${backendUrl}/api/widget/${id}/widget.js` */
  function WidgetUrl(backendUrl: string, agentId: string): string {
    backendUrl + "/api/widget/" + agentId + "/widget.js"
  }

  /** The template with its three placeholders replaced, in the handler's order. */
  function Substitute(template: string, backendUrl: string, demoAgentId: string): string {
    var s1 := Text.ReplaceAll(template, WidgetPlaceholder, WidgetUrl(backendUrl, "YOUR_AGENT_ID"));
    var s2 := Text.ReplaceAll(s1, DemoWidgetPlaceholder, WidgetUrl(backendUrl, demoAgentId));
    Text.ReplaceAll(s2, AgentIdPlaceholder, demoAgentId)
  }

  predicate NoBraces(s: string) {
    '{' !in s && '}' !in s
  }

  /** A widget URL contains a '/', which no placeholder has. */
  lemma WidgetUrlSafe(backendUrl: string, agentId: string, p: string)
    requires NoBraces(backendUrl) && NoBraces(agentId) && '/' !in p
    ensures Text.SafeReplacement(WidgetUrl(backendUrl, agentId), p)
  {
    var w := WidgetUrl(backendUrl, agentId);
    assert w[|backendUrl|] == '/';
  }

  /** No placeholder survives substitution when the inserted values cannot spell one: the backend
      URL has no brace and the agent id has no brace and some character outside each placeholder. */
  lemma NoPlaceholderRemains(template: string, backendUrl: string, demoAgentId: string)
    requires NoBraces(backendUrl)
    requires Text.SafeReplacement(demoAgentId, WidgetPlaceholder)
    requires Text.SafeReplacement(demoAgentId, DemoWidgetPlaceholder)
    requires Text.SafeReplacement(demoAgentId, AgentIdPlaceholder)
    ensures var out := Substitute(template, backendUrl, demoAgentId);
            !Text.Includes(out, WidgetPlaceholder)
            && !Text.Includes(out, DemoWidgetPlaceholder)
            && !Text.Includes(out, AgentIdPlaceholder)
  {
    var w := WidgetUrl(backendUrl, "YOUR_AGENT_ID");
    var d := WidgetUrl(backendUrl, demoAgentId);
    var s1 := Text.ReplaceAll(template, WidgetPlaceholder, w);
    var s2 := Text.ReplaceAll(s1, DemoWidgetPlaceholder, d);
    WidgetUrlSafe(backendUrl, "YOUR_AGENT_ID", WidgetPlaceholder);
    WidgetUrlSafe(backendUrl, demoAgentId, WidgetPlaceholder);
    WidgetUrlSafe(backendUrl, demoAgentId, DemoWidgetPlaceholder);
    Text.NoPlaceholderAfterReplace(template, WidgetPlaceholder, w, WidgetPlaceholder);
    Text.NoPlaceholderAfterReplace(s1, DemoWidgetPlaceholder, d, WidgetPlaceholder);
    Text.NoPlaceholderAfterReplace(s1, DemoWidgetPlaceholder, d, DemoWidgetPlaceholder);
    Text.NoPlaceholderAfterReplace(s2, AgentIdPlaceholder, demoAgentId, WidgetPlaceholder);
    Text.NoPlaceholderAfterReplace(s2, AgentIdPlaceholder, demoAgentId, DemoWidgetPlaceholder);
    Text.NoPlaceholderAfterReplace(s2, AgentIdPlaceholder, demoAgentId, AgentIdPlaceholder);
  }

  /** Placeholders are spelled with braces, capitals and underscores only. */
  predicate PlaceholderSpelling(p: string) {
    forall i :: 0 <= i < |p| ==> p[i] == '{' || p[i] == '}' || p[i] == '_' || 'A' <= p[i] <= 'Z'
  }

  /** A lower-case hexadecimal id, as MongoDB ObjectIds are written. */
  predicate IsHexId(s: string) {
    |s| > 0 && forall i :: 0 <= i < |s| ==> '0' <= s[i] <= '9' || 'a' <= s[i] <= 'f'
  }

  /** A hexadecimal id cannot help spell a placeholder. */
  lemma HexIdSafe(id: string, p: string)
    requires IsHexId(id) && PlaceholderSpelling(p)
    ensures Text.SafeReplacement(id, p)
  {
    assert id[0] in id;
    assert forall i :: 0 <= i < |p| ==> p[i] != id[0];
  }

  /** The default demo agent id, and every other ObjectId, qualifies. */
  lemma DefaultIdSafe()
    ensures Text.SafeReplacement(DefaultDemoAgentId, WidgetPlaceholder)
    ensures Text.SafeReplacement(DefaultDemoAgentId, DemoWidgetPlaceholder)
    ensures Text.SafeReplacement(DefaultDemoAgentId, AgentIdPlaceholder)
  {
    assert IsHexId(DefaultDemoAgentId);
    assert PlaceholderSpelling(WidgetPlaceholder);
    HexIdSafe(DefaultDemoAgentId, WidgetPlaceholder);
    assert PlaceholderSpelling(DemoWidgetPlaceholder);
    HexIdSafe(DefaultDemoAgentId, DemoWidgetPlaceholder);
    assert PlaceholderSpelling(AgentIdPlaceholder);
    HexIdSafe(DefaultDemoAgentId, AgentIdPlaceholder);
  }

  /** A template without placeholders is served unchanged. */
  lemma PlainTemplateUnchanged(template: string, backendUrl: string, demoAgentId: string)
    requires !Text.Includes(template, WidgetPlaceholder)
    requires !Text.Includes(template, DemoWidgetPlaceholder)
    requires !Text.Includes(template, AgentIdPlaceholder)
    ensures Substitute(template, backendUrl, demoAgentId) == template
  {
    Text.ReplaceAllNoMatch(template, WidgetPlaceholder, WidgetUrl(backendUrl, "YOUR_AGENT_ID"));
    Text.ReplaceAllNoMatch(template, DemoWidgetPlaceholder, WidgetUrl(backendUrl, demoAgentId));
    Text.ReplaceAllNoMatch(template, AgentIdPlaceholder, demoAgentId);
  }

  /** What `getDemoHTML` returns: the substituted template, or the fallback page, whose fixed markup
      is not modelled beyond the backend URL, agent id and script URL it embeds. */
  datatype DemoPage = Rendered(html: string) | Fallback(backendUrl: string, demoAgentId: string, scriptUrl: string)

  /** `getDemoHTML`: `template` is the first template file found, `None` when there is none. Both
      branches resolve the backend URL and the demo agent id by the same rules. */
  method GetDemoHtml(protocol: string, host: string, env: DemoEnv, template: Option<string>) returns (page: DemoPage)
    ensures var url := BackendUrlFor(protocol, host, env);
            var id := OrElse(env.demoAgentId, DefaultDemoAgentId);
            page == if template.Some? then Rendered(Substitute(template.value, url, id))
                    else Fallback(url, id, WidgetUrl(url, id))
  {
    var backendUrl := ResolveBackendUrl(protocol, host, env);
    var demoAgentId := OrElse(env.demoAgentId, DefaultDemoAgentId);
    if template.None? {
      return Fallback(backendUrl, demoAgentId, WidgetUrl(backendUrl, demoAgentId));
    }
    var widgetUrl := WidgetUrl(backendUrl, "YOUR_AGENT_ID");
    var demoWidgetUrl := WidgetUrl(backendUrl, demoAgentId);
    var html := Text.ReplaceAll(template.value, WidgetPlaceholder, widgetUrl);
    html := Text.ReplaceAll(html, DemoWidgetPlaceholder, demoWidgetUrl);
    html := Text.ReplaceAll(html, AgentIdPlaceholder, demoAgentId);
    page := Rendered(html);
  }
}
