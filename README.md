# Lyzr support chat agent — a Dafny model

The Lyzr support platform lets a user register "agents" that front a Lyzr AI agent. Each agent gets
an embeddable chat widget, and each chat session is filed as a support ticket. This project models
the logic of that system in Dafny and proves what it promises:

- **Stores.** The three MongoDB collections (agents, tickets, users) are one `Store.Database`
  object holding three maps from id to document. The document validators of the Mongoose schemas
  are predicates (`AgentModel.AgentValid`, `TicketModel.TicketValid`), and every handler that
  writes keeps `Database.Valid()`.
- **Backend handlers.** The Express handlers of the chat, ticket, widget, agent, optimization and
  user controllers are methods over that object. Each either returns an HTTP error code and leaves
  the maps as they were, or changes them in the way its `ensures` spells out.
- **Parameters.** The upstream Lyzr reply, the caller's IP, the clock, fresh document ids and
  environment variables are all parameters.
- **Lyzr service.** `Lyzr` covers the service's settings, request payload and session ids.
- **Demo page.** `DemoTemplate` covers how the demo page resolves the backend URL and substitutes
  its placeholders.
- **Widget client.** `WidgetClient` models the embeddable widget (`widget.js`) as a class with the
  widget's own state: open/closed, typing, the message log and the pending request. It includes
  the auto-initialiser that creates at most one instance per page.
- **Dashboard.** `AgentStore` and `AuthStore` are the dashboard's zustand stores, modelled as pure
  reducers. `CreateAgentModal` covers the create form's schema, domain parsing, payload mapping
  and submit flag.

Shared helpers:

- `Wrappers`: `Option` and `Result`.
- `Text`: the JavaScript string operations used: `includes`, `split`/`join`, `trim`,
  `toLowerCase`, global `replace`, decimal numerals and e-mail addresses.
- `Paging`: `Math.ceil` pagination, `Array.prototype.slice` and MongoDB's `skip`/`limit`.
- `Lists`: filter, distinct and a newest-first sort.

## Model

| member | source | states |
|---|---|---|
| AgentModel.WithSchemaDefaults | backend/src/models/Agent.ts:63-94 | creating a document fills every missing widget field with its schema default (light, #3b82f6, bottom-right, 'Hi! How can I help you today?', 'Type your message...', 'Chat Support') and keeps every given one |
| AgentModel.DefaultsValid | backend/src/models/Agent.ts:63-94 | the schema's own widget defaults pass the widget validators, and the default colour is a valid hex colour |
| AgentModel.HexColorCaseInsensitive | backend/src/models/Agent.ts:69-73 | the `A-Fa-f` colour pattern ignores case: a colour is valid exactly when its lower-case spelling is |
| AgentModel.DomainChars | backend/src/models/Agent.ts:95-98 | a domain accepted by the pattern holds only lower-case letters, digits, hyphens and dots, so '*' and upper case are rejected |
| AgentModel.DomainFromLabels | backend/src/models/Agent.ts:95-98 | conversely, labels of lower-case alphanumerics with inner hyphens, followed by a top label of at least two letters and joined by dots, always match the pattern |
| Store.PutAgent | backend/src/models/Agent.ts:48-53 | storing a valid agent whose upstream `lyzrConfig.agentId` no other agent uses keeps the collection valid, uniqueness included |
| Store.ReplaceAnalytics | backend/src/models/Agent.ts:103-117 | changing only an agent's counters and its `updatedAt` stamp keeps the collection valid |
| Store.PutTicket | backend/src/models/Ticket.ts:41-165 | storing a valid ticket keeps the ticket collection valid |
| TicketModel.AgeInDays | backend/src/models/Ticket.ts:174-177 | the `age` virtual is the number of whole days since creation: days*86400000 <= elapsed < (days+1)*86400000 |
| TicketModel.AgeMonotone | backend/src/models/Ticket.ts:174-177 | age never decreases as time passes, and is 0 during the first day |
| Lyzr.Setting | backend/src/services/lyzr.ts:22-26 | `arg \|\| env`: a truthy argument wins, otherwise the environment value |
| Lyzr.NewService | backend/src/services/lyzr.ts:22-26 | each missing or empty constructor argument falls back to its environment variable |
| Lyzr.BuildPayload | backend/src/services/lyzr.ts:35-40 | message, user id and session id are carried unchanged; `agent_id` is the per-call id when truthy, else the configured one |
| Lyzr.SendMessage | backend/src/services/lyzr.ts:28-65 | the request goes to the instance's endpoint with the instance's key in `x-api-key` and the payload as body; the call fails exactly when that post fails, and otherwise returns the upstream response whole |
| Lyzr.SessionIdParts | backend/src/services/lyzr.ts:67-70 | a minted session id starts with `agentId-userId-` and its last '-'-separated part is the timestamp's numeral, which reads back as the timestamp |
| Paging.CeilDiv | backend/src/controllers/ticketController.ts:129 | `Math.ceil(total/limit)` is the least page count that holds `total` items |
| Paging.Pages | backend/src/controllers/userController.ts:107 | the `pages` field: ceil for a positive limit, `null` exactly for a zero limit, non-positive for a negative one |
| Paging.SliceIndex | backend/src/controllers/optimizationController.ts:306-317 | JavaScript's reading of a `slice` bound: negative from the end, clamped to the length |
| Paging.Window | backend/src/controllers/ticketController.ts:113-121 | `skip(skip).limit(limit)` fails (500) exactly on a negative skip |
| Paging.SliceIsPage | backend/src/controllers/optimizationController.ts:306-317 | page `page` holds the items at positions [(page-1)*limit, page*limit) that exist, never more than `limit` |
| Paging.ItemOnItsPage | backend/src/controllers/ticketController.ts:111-129 | every item sits on page k/limit+1 at offset k%limit, and that page is within the advertised page count |
| Paging.WindowAt | backend/src/controllers/ticketController.ts:113-121 | a database window from a non-negative offset is the JavaScript slice of the same span |
| Paging.WindowIsSlice | backend/src/controllers/ticketController.ts:111-121 | `skip((page-1)*limit).limit(limit)` and `slice((page-1)*limit, page*limit)` return the same items for every page and positive limit |
| Paging.WindowWithin | backend/src/controllers/userController.ts:56-60 | a window holds only elements of the listing it was cut from |
| TicketController.TrimAll | backend/src/models/Ticket.ts:119-123 | the tag setter trims every tag and keeps their number and order |
| TicketController.NewTicketValid | backend/src/controllers/ticketController.ts:47-92 | for a request the creation schema accepts (e-mail included), the created ticket passes every validator of the ticket schema, the e-mail `match` among them, exactly when its trimmed title, description and category are non-empty; it belongs to and is assigned to the caller, status open, priority as requested or medium |
| TicketController.NewTicketBounded | backend/src/controllers/ticketController.ts:8-23 | the schema's bounds survive trimming: title <= 200, description <= 2000, category <= 100, tags valid, customer name, phone and (trimmed, lower-cased) e-mail valid, no messages, no resolution |
| TicketController.TrimmedTagsValid | backend/src/models/Ticket.ts:119-123 | trimmed tags stay within 50 characters |
| TicketController.StoredCustomerValid | backend/src/models/Ticket.ts:124-142 | the customer-info setters (trim, lower-case e-mail) keep valid customer info valid, the e-mail `match` included |
| Text.EmailSurvivesSetters | backend/src/models/Ticket.ts:130-135 | an address the schema accepts is its own trim, and lower-casing keeps it an address |
| TicketController.CreateTicket | backend/src/controllers/ticketController.ts:47-92 | 400 on a schema violation, a customer e-mail that is not an address among them; 404 when the agent is missing or not the signed-in caller's; 500 when the stored document fails validation; otherwise exactly the new ticket is added and nothing else changes |
| TicketController.ListTickets | backend/src/controllers/ticketController.ts:101-121 | the listing holds, once each and newest first, exactly the caller's tickets that match every given status, priority and category filter |
| TicketController.GetTickets | backend/src/controllers/ticketController.ts:97-140 | the page is the listing's window at skip (page-1)*limit, with the listing length as total and ceil(total/limit) pages; a negative skip is 500 |
| TicketController.GetTicket | backend/src/controllers/ticketController.ts:145-178 | the ticket when one of the caller's agents holds it, else 404 |
| TicketController.DeleteTicket | backend/src/controllers/ticketController.ts:240-269 | removes exactly that ticket when visible to the caller, else 404 and no change |
| TicketController.ResolutionStamped | backend/src/controllers/ticketController.ts:191-195 | a resolution in the update is recorded as resolved by the caller at `now`; without one the stored resolution stays; messages, agent, creation time and analytics never change |
| TicketController.UpdateKeepsValid | backend/src/controllers/ticketController.ts:196-205 | a schema-valid update that blanks no required field keeps a valid ticket valid (`runValidators: true`) |
| TicketController.UpdateTicket | backend/src/controllers/ticketController.ts:183-235 | 400 on a schema violation, 500 when an update validator refuses a blank required field, 404 when not visible; otherwise the updated ticket is stored in place of the old one |
| TicketController.RequestedMessage | backend/src/controllers/ticketController.ts:38-42 | a schema-valid message request is a valid message whose sender defaults to 'agent' |
| TicketController.AppendMessageValid | backend/src/models/Ticket.ts:89-105 | appending a valid message keeps a valid ticket valid |
| TicketController.AddMessage | backend/src/controllers/ticketController.ts:274-330 | 400 on a schema violation, 404 when not visible, no change on error; otherwise exactly one message appended at the end, interactions + 1, and the reply carries that message |
| TicketController.StatusCounts | backend/src/controllers/ticketController.ts:341-356 | the overview's total is the number of tickets |
| TicketController.StatusCountsPartition | backend/src/controllers/ticketController.ts:383-392 | open + inProgress + resolved + closed = total, each being its status's count; no tickets give the all-zero overview |
| TicketController.GetTicketAnalytics | backend/src/controllers/ticketController.ts:335-404 | the overview counts exactly the caller's tickets, each once |
| ChatController.SessionTitle | backend/src/controllers/chatController.ts:74 | the message itself when at most 50 characters, otherwise its first 50 characters followed by '...' |
| ChatController.FinalSessionId | backend/src/controllers/chatController.ts:39-42 | a truthy supplied session id is used unchanged; otherwise one is minted from the upstream agent id and the IP or 'anonymous' |
| ChatController.SessionTicketShape | backend/src/controllers/chatController.ts:60-89 | a new session's ticket holds [user message, agent reply] in order, description = message, category 'General Support', status open, priority medium, filed under the session |
| ChatController.AppendExchangeShape | backend/src/controllers/chatController.ts:91-109 | continuing a session grows the log by exactly two entries, user then agent, keeps every earlier entry and counts one interaction |
| ChatController.AppendExchangeValid | backend/src/controllers/chatController.ts:91-109 | the append keeps a valid ticket valid exactly when both new messages are valid |
| ChatController.CountChatKeepsAgent | backend/src/controllers/chatController.ts:113-119 | totalMessages + 1 always, totalChats + 1 only without a supplied session id; no validated field changes |
| ChatController.UpstreamRequestOfAgent | backend/src/controllers/chatController.ts:45-57 | for a stored agent the upstream request goes to the agent's own endpoint with its own key, from the IP or 'anonymous', naming its upstream id, whatever the environment holds |
| ChatController.FileExchange | backend/src/controllers/chatController.ts:60-110 | finds the session's ticket and appends the exchange, or files a new ticket; it succeeds exactly when the new ticket passes the ticket schema (first message) or both appended messages pass the message validators (continuing session, the corrected behaviour, see Left out); a refusal changes nothing |
| ChatController.SendMessage | backend/src/controllers/chatController.ts:18-146 | 400 for an empty message or agent id, 404 for an unknown agent, 400 for an inactive one, 500 when the upstream call fails, all before any write; otherwise the call succeeds exactly when the exchange can be filed (refused with 500 when a message breaks the ticket schema, on the append path too: the corrected behaviour); on success exactly one exchange is filed, the counters are bumped and the reply echoes the session id and reply text |
| ChatController.LongMessageRejectedOnCreate | backend/src/controllers/chatController.ts:60-89 | a 2001-character first message makes the new ticket invalid (500) |
| ChatController.UnvalidatedAppendBreaksBound | backend/src/controllers/chatController.ts:91-109 | the same message continuing a session is stored as written, breaking the 2000-character message bound |
| OptimizationController.UploadAppends | backend/src/controllers/optimizationController.ts:228-252 | the existing entries keep their place, the new pairs follow in request order, the count is old + n, `lastTrainingUpdate` and `updatedAt` become now, and nothing the validators check changes |
| OptimizationController.UploadTrainingData | backend/src/controllers/optimizationController.ts:211-270 | 400 on a schema violation (before the lookup), 404 unless the caller owns the agent, no change on error; otherwise the append above (with `updatedAt` = now) and the new count |
| OptimizationController.UploadAsWrittenLosesData | backend/src/controllers/optimizationController.ts:228-252 | a one-pair upload as written stores no training data (only `updatedAt` changes) and reports 0, where the intended upload reports old + 1 |
| OptimizationController.FilterTrainingIff | backend/src/controllers/optimizationController.ts:294-303 | an item is kept exactly when it is in the given category and its question or answer contains the search text, case-insensitively |
| OptimizationController.TruthyCategories | backend/src/controllers/optimizationController.ts:321 | exactly the non-empty categories present |
| OptimizationController.CategoriesOf | backend/src/controllers/optimizationController.ts:321 | each non-empty category of the filtered data exactly once, and nothing else |
| OptimizationController.TrainingResponsePage | backend/src/controllers/optimizationController.ts:306-317 | the page is filtered[(page-1)*limit .. page*limit) clipped, total = filtered length, pages = ceil(total/limit) |
| OptimizationController.GetTrainingData | backend/src/controllers/optimizationController.ts:275-331 | 404 unless the caller owns the agent; otherwise the filtered, paginated response with its categories |
| OptimizationController.CountResolved | backend/src/controllers/optimizationController.ts:359-361 | the resolved count is at most the total, 0 exactly when none is resolved or closed, the total exactly when all are |
| OptimizationController.MetricsOf | backend/src/controllers/optimizationController.ts:351-385 | totalTickets is the ticket count and resolvedTickets never exceeds it |
| OptimizationController.MeanSatisfactionInRange | backend/src/controllers/optimizationController.ts:356 | the average satisfaction over valid tickets, when defined, lies in [1, 5] |
| OptimizationController.ResolutionRate | backend/src/controllers/optimizationController.ts:387-389 | the rate is never negative and is at most 100 whenever resolved tickets do not outnumber tickets |
| OptimizationController.RateBelowSeventy | backend/src/controllers/optimizationController.ts:414 | the rate is below 70 exactly when there are no tickets or 100*resolved < 70*total |
| OptimizationController.PushedRecommends | backend/src/controllers/optimizationController.ts:392-442 | after the five checks the list holds each due kind once, in check order, as its fixed entry |
| OptimizationController.Recommend | backend/src/controllers/optimizationController.ts:392-442 | the pushes in sequence give satisfaction, response_time, resolution_rate, training, data, each present exactly when its own condition holds |
| OptimizationController.RankedUnique | backend/src/controllers/optimizationController.ts:392-442 | the check order fixes the list: two lists in that order with the same kinds are equal |
| OptimizationController.NoTicketsRecommendations | backend/src/controllers/optimizationController.ts:380-442 | an agent without tickets gets exactly satisfaction, resolution_rate and data, in that order |
| OptimizationController.HealthyAgentNoRecommendations | backend/src/controllers/optimizationController.ts:392-442 | ten or more tickets, all resolved, rated 5 and answered within a minute give no recommendation |
| OptimizationController.GetOptimizationRecommendations | backend/src/controllers/optimizationController.ts:336-466 | 404 unless the caller owns the agent; otherwise the metrics over exactly that agent's tickets and the recommendation list above |
| OptimizationController.OptimizationStored | backend/src/controllers/optimizationController.ts:164-176 | the intended `$set` stores the settings as sent, stamps `updatedAt`, changes no validated field and keeps a valid agent valid |
| OptimizationController.OptimizationAsWrittenLost | backend/src/controllers/optimizationController.ts:164-176 | as written the stored settings never change, so a first update leaves none stored where the intended update stores the ones sent |
| OptimizationController.UpdateAgentOptimization | backend/src/controllers/optimizationController.ts:160-206 | 400 on a schema violation, 404 unless owned, no change on error; otherwise the settings replace the stored ones whole and `updatedAt` = now |
| UserController.ParseRole | backend/src/controllers/userController.ts:12 | only the names 'admin' and 'user' are accepted, each as its own role |
| UserController.ParsePlan | backend/src/controllers/userController.ts:15 | only 'free', 'pro' and 'enterprise' are accepted |
| UserController.ParseActivity | backend/src/controllers/userController.ts:13 | only 'active' and 'inactive' are accepted |
| UserController.EnumNamesRoundTrip | backend/src/controllers/userController.ts:9-18 | every role, status and plan is accepted under its own name |
| UserController.Whitelisted | backend/src/controllers/userController.ts:212-220 | a non-admin's body keeps name and e-mail as given and drops role, status and subscription |
| UserController.WhitelistedKeepsPrivileges | backend/src/controllers/userController.ts:212-233 | a non-admin update keeps the body valid and never changes role, status, subscription or creation date |
| UserController.ApplyUserInputIdempotent | backend/src/controllers/userController.ts:242-246 | an empty body changes nothing, and applying a body twice is applying it once |
| UserController.UpdateUser | backend/src/controllers/userController.ts:200-274 | 403 for a non-admin on another id, then 400 for an invalid body, then 400 for a non-admin body without name or e-mail; an admin gets 404 for a missing user; otherwise the whitelisted (non-admin) or full (admin) body is applied |
| UserController.DeleteUser | backend/src/controllers/userController.ts:279-308 | 403 for a non-admin, 404 for an unknown id, no change on error; otherwise exactly that user is removed |
| UserController.ListUsers | backend/src/controllers/userController.ts:31-60 | the listing holds, once each and newest first, exactly the users in the caller's scope matching the search, status and role filters |
| UserController.GetUsers | backend/src/controllers/userController.ts:23-118 | page (default 1) of limit (default 20) users at skip (page-1)*limit, total = listing length, pages = ceil(total/limit); a negative skip is 500 |
| UserController.NonAdminScope | backend/src/controllers/userController.ts:33-44 | a non-admin sees only users with a ticket on one of their agents, and nobody unless they own an agent |
| WidgetController.SomeDomainMatches | backend/src/controllers/widgetController.ts:51-54 | true exactly when some listed domain occurs in the origin or is '*' |
| WidgetController.WidgetGate | backend/src/controllers/widgetController.ts:30-63 | 404 exactly for an unknown agent, then 403 for an inactive one; an active agent is admitted exactly when it lists no domains, the request has no origin or referer, or some domain occurs in it or is '*' |
| WidgetController.WildcardNeverStored | backend/src/controllers/widgetController.ts:53 | no valid stored agent lists '*', so the wildcard branch never decides |
| WidgetController.StoredAgentGate | backend/src/controllers/widgetController.ts:48-63 | for a stored agent the domain gate is a plain substring test on the origin |
| WidgetController.EmptyDomainAdmitsAll | backend/src/controllers/widgetController.ts:50-54 | an empty domain entry opens the gate to every origin |
| WidgetController.LookalikeOriginAdmitted | backend/src/controllers/widgetController.ts:51-54 | an origin that merely contains a listed domain ('https://example.com.evil.net' for 'example.com') is admitted |
| WidgetController.ServedDefaults | backend/src/controllers/widgetController.ts:67-77 | with no stored widget fields every served field takes its own fallback: 'Support Chat', light, #3b82f6, bottom-right, and so on |
| WidgetController.StoredDefaultsWin | backend/src/controllers/widgetController.ts:70-74 | an agent created without widget settings is served the schema defaults 'Chat Support' and 'Hi! How can I help you today?', not the endpoint's fallbacks |
| WidgetController.ServedConfigBounded | backend/src/controllers/widgetController.ts:67-77 | a stored agent's served colour is a valid hex colour and title, welcome and placeholder keep their bounds |
| WidgetController.FieldsIndependent | backend/src/controllers/widgetController.ts:67-77 | changing one stored widget field changes only the matching served field |
| WidgetController.UnescapeEscape | backend/src/controllers/widgetController.ts:96-100 | the `JSON.stringify` escaping (quote, backslash, `\b \f \n \r \t`, `\u00xx` for the other control characters) reads back as the original text through a JSON reader that refuses raw control characters, so a stored field cannot end the injected string literal early |
| WidgetController.ServeWidget | backend/src/controllers/widgetController.ts:9-123 | a refused request answers the gate's status and changes nothing; a missing widget file gives 500 and changes nothing; otherwise the script is the config injection followed by the unchanged widget source, and only this agent's pageViews rises by 1, with `updatedAt` = now |
| WidgetController.StoreCounters | backend/src/controllers/widgetController.ts:107-109 | writing an agent's counters back sets `updatedAt` = now and changes no other field or document |
| WidgetController.PublicConfigAgrees | backend/src/controllers/widgetController.ts:147-155 | the config endpoint agrees with the served config on every field but the title, which falls back to the agent's name and is never empty for a stored agent |
| WidgetController.GetWidgetConfig | backend/src/controllers/widgetController.ts:128-169 | 404 for an unknown agent, then 403 for an inactive one, with no domain gate; otherwise the public config |
| WidgetController.TrackPageView | backend/src/controllers/widgetController.ts:174-201 | pageViews + 1, lastSeen = now and updatedAt = now for a known agent; an unknown id changes nothing and still succeeds |
| WidgetController.PageViewsAsWrittenUncounted | backend/src/controllers/widgetController.ts:107-109 | as written, any run of page views (served scripts, or `trackPageView` at lines 180-187) leaves every counter, `pageViews` included, where it was |
| WidgetController.PageViewsCounted | backend/src/controllers/widgetController.ts:107-109 | with the intended bump, `pageViews` grows by the number of page views served and no other counter moves |
| WidgetController.InteractionUpdate | backend/src/controllers/widgetController.ts:212-222 | lastUsed is always set; 'chat_opened' counts one chat, 'message_sent' one message, any other type nothing |
| WidgetController.TrackInteraction | backend/src/controllers/widgetController.ts:206-238 | lastUsed = now; totalChats rises only for 'chat_opened', totalMessages only for 'message_sent'; updatedAt = now; page views and every other agent unchanged |
| AgentController.WidgetInputValid | backend/src/controllers/agentController.ts:15-22 | a widget object the request schema accepts passes the document validators, with or without the schema defaults filled in |
| AgentController.NewAgentValid | backend/src/controllers/agentController.ts:47-50 | a created agent is valid exactly when the document validators raise nothing; it belongs to the caller, is active and has zero counters |
| AgentController.NewAgentBounded | backend/src/controllers/agentController.ts:7-24 | the request schema already guarantees the trimmed name and description bounds, the non-empty upstream settings and valid widget settings |
| AgentController.CreateAgent | backend/src/controllers/agentController.ts:31-71 | 400 on a schema violation or an upstream id already used by any agent, 500 when the validators refuse; otherwise exactly the new agent, owned by the caller, is added |
| AgentController.GetAgents | backend/src/controllers/agentController.ts:76-92 | exactly the caller's agents, each once, newest first |
| AgentController.GetAgent | backend/src/controllers/agentController.ts:97-122 | the agent when the caller owns it, else 404 |
| AgentController.UpdateKeeps | backend/src/controllers/agentController.ts:129-135 | an update never touches owner, activity, counters, creation time or training data, and keeps a valid agent valid when the validators raise nothing |
| AgentController.UpdatedFieldsValid | backend/src/controllers/agentController.ts:131-135 | with `runValidators: true`, each replaced field of a valid agent passes its validator when the schema accepted it and the validators raise nothing |
| AgentController.UpdateAgent | backend/src/controllers/agentController.ts:127-163 | 400 on a schema violation, 500 when the validators refuse, 404 unless owned, 500 when the new upstream id belongs to another agent; otherwise the update is stored |
| AgentController.DeleteAgent | backend/src/controllers/agentController.ts:168-193 | removes exactly the caller's agent, else 404 and no change; its tickets stay |
| AgentController.ToggleTwice | backend/src/controllers/agentController.ts:212-213 | a toggle negates isActive, and toggling twice restores every field but the update time |
| AgentController.ToggleAgent | backend/src/controllers/agentController.ts:198-226 | flips the caller's agent's activity and nothing else, else 404 and no change |
| DemoTemplate.ResolveBackendUrl | backend/src/utils/demoTemplate.ts:36-48 | the step-by-step reassignment of `backendUrl` computes the resolution rule |
| DemoTemplate.DetectedUrl | backend/src/utils/demoTemplate.ts:39-48 | without BACKEND_URL, an onrender or vercel host is reached over https; any other host keeps the request's scheme, except that http is upgraded where HTTPS is forced |
| DemoTemplate.ConfiguredUrl | backend/src/utils/demoTemplate.ts:45-48 | a configured BACKEND_URL is used as given, except that an 'http://' one is upgraded on onrender or in production |
| DemoTemplate.BackendUrlSecure | backend/src/utils/demoTemplate.ts:45-48 | where HTTPS is forced the URL never starts with 'http://' |
| DemoTemplate.NoPlaceholderRemains | backend/src/utils/demoTemplate.ts:64-68 | no `{{WIDGET_URL}}`, `{{DEMO_WIDGET_URL}}` or `{{DEMO_AGENT_ID}}` survives substitution when the inserted values cannot spell one |
| DemoTemplate.WidgetUrlSafe | backend/src/utils/demoTemplate.ts:54-55 | a widget URL contains '/', so it cannot help spell a placeholder |
| DemoTemplate.HexIdSafe | backend/src/utils/demoTemplate.ts:51 | a hexadecimal agent id cannot help spell a placeholder |
| DemoTemplate.DefaultIdSafe | backend/src/utils/demoTemplate.ts:51 | the default demo agent id '6883fec523d48350b2f43f80' is safe for all three placeholders |
| DemoTemplate.PlainTemplateUnchanged | backend/src/utils/demoTemplate.ts:64-68 | a template without placeholders is served unchanged |
| DemoTemplate.GetDemoHtml | backend/src/utils/demoTemplate.ts:4-148 | the template found is rendered with its placeholders substituted; without one the fallback page carries the backend URL and demo id resolved by the same rules |
| WidgetClient.Pick | widget/src/widget.js:5-16 | an absent key takes its default, a supplied key keeps its value whatever it is, a supplied null stays null |
| WidgetClient.MergeIdempotent | widget/src/widget.js:5-16 | merging a merged configuration again changes nothing |
| WidgetClient.PresentEmptyKeyWins | widget/src/widget.js:13-15 | a supplied empty title is kept as "" rather than replaced by 'Support Chat' |
| WidgetClient.FromAttribute | widget/src/widget.js:654-671 | a missing `data-*` attribute is absent (its null key deleted), a present one is its string |
| WidgetClient.ScriptConfig | widget/src/widget.js:653-671 | the script-tag configuration holds no null values |
| WidgetClient.ScriptConfigHasNoNulls | widget/src/widget.js:653-671 | so every field of the merged script-tag configuration is a string |
| WidgetClient.ReplyText | widget/src/widget.js:520-533 | `data.data.message` on success, else `data.response`, else the processing apology; a failed request gives the connection apology |
| WidgetClient.ReplyNonEmpty | widget/src/widget.js:520-533 | the bot line is never empty |
| WidgetClient.LyzrWidget.constructor | widget/src/widget.js:4-24 | a new widget has the merged config, starts closed, not typing, with an empty log and no pending request |
| WidgetClient.LyzrWidget.OpenChat | widget/src/widget.js:440-451 | opens the chat whatever its state and changes nothing else |
| WidgetClient.LyzrWidget.CloseChat | widget/src/widget.js:453-459 | closes the chat whatever its state and changes nothing else |
| WidgetClient.LyzrWidget.ToggleChat | widget/src/widget.js:432-438 | flips isOpen and changes nothing else |
| WidgetClient.LyzrWidget.SetInput | widget/src/widget.js:462 | the text box holds what was typed; nothing else changes |
| WidgetClient.LyzrWidget.HandleSendMessage | widget/src/widget.js:461-507 | nothing happens for blank input or while a send is in flight; otherwise the box is cleared, exactly one user line with the trimmed text is appended, and the request (agent id, message, session id) goes out with the typing flag, disabled button and indicator on |
| WidgetClient.LyzrWidget.CompleteSend | widget/src/widget.js:509-537 | exactly one bot line with the selected reply is appended; typing ends and the button is enabled again, success or failure |
| WidgetClient.AgentIdSuffices | widget/src/widget.js:678 | the launch test is exactly a non-empty agent id |
| WidgetClient.AutoInit | widget/src/widget.js:639-695 | the global config wins over the script tag; a widget is created only for a non-empty agent id and only when the page has none, and an existing instance is kept |
| WidgetClient.AutoInitTwice | widget/src/widget.js:681-686 | running the initialiser twice leaves the first instance in place |
| AgentStore.PatchLaws | frontend/src/stores/agentStore.ts:52 | the spread `{...agent, ...updates}`: an empty update is the identity, repeating an update changes nothing more, two updates in a row are one combined update |
| AgentStore.PatchKeepsOthers | frontend/src/stores/agentStore.ts:52 | fields an update does not carry keep their values |
| AgentStore.SetAgents | frontend/src/stores/agentStore.ts:47 | replaces the list; selection and loading flag unchanged |
| AgentStore.AddAgent | frontend/src/stores/agentStore.ts:48 | appends at the end: length + 1, earlier entries unchanged |
| AgentStore.UpdateMatching | frontend/src/stores/agentStore.ts:51-53 | same length; each entry with the id is patched, every other one kept |
| AgentStore.UpdateAgent | frontend/src/stores/agentStore.ts:49-54 | keeps length and order; only entries with a matching id change; selection and loading unchanged |
| AgentStore.UpdateUnknownId | frontend/src/stores/agentStore.ts:49-54 | updating an id no agent has leaves the state as it was |
| AgentStore.DeleteAgent | frontend/src/stores/agentStore.ts:55-58 | no entry with the id remains, every other entry remains, nothing new appears; the order of the survivors is kept, by `AgentStore.FilterSnoc` and `Lists.FilterConcat` |
| AgentStore.FilterSnoc | frontend/src/stores/agentStore.ts:55-58 | deleting from a list with one more entry at its end deletes from the list and keeps that entry last unless it has the id |
| Lists.FilterConcat | frontend/src/stores/agentStore.ts:55-58 | `filter` keeps the original order: filtering a concatenation is the concatenation of the filtered parts |
| AgentStore.DeleteIdempotent | frontend/src/stores/agentStore.ts:55-58 | deleting twice is deleting once |
| AgentStore.DeleteUndoesAdd | frontend/src/stores/agentStore.ts:48-58 | deleting the id of an agent just added gives the same list as deleting it before the add |
| AgentStore.DeleteAfterUpdate | frontend/src/stores/agentStore.ts:49-58 | after an update that keeps ids, deleting the id gives the same list as deleting it first |
| AgentStore.SetSelectedAgent | frontend/src/stores/agentStore.ts:59 | changes only the selection |
| AgentStore.SetLoading | frontend/src/stores/agentStore.ts:60 | changes only the loading flag |
| AgentStore.DeleteKeepsSelection | frontend/src/stores/agentStore.ts:55-59 | deleting the selected agent leaves a stale selection |
| AuthStore.SetUser | frontend/src/stores/authStore.ts:33 | sets the user and the authenticated flag; token and loading flag unchanged |
| AuthStore.SetToken | frontend/src/stores/authStore.ts:34 | changes only the token; the authenticated flag does not follow it |
| AuthStore.Logout | frontend/src/stores/authStore.ts:35 | clears user, token and the authenticated flag and keeps isLoading |
| AuthStore.SetLoading | frontend/src/stores/authStore.ts:36 | changes only the loading flag |
| AuthStore.RunConsistent | frontend/src/stores/authStore.ts:29-36 | every action keeps "authenticated exactly when a user is set" |
| AuthStore.ReachableConsistent | frontend/src/stores/authStore.ts:29-36 | every state reachable from the initial one is consistent |
| AuthStore.LogoutResets | frontend/src/stores/authStore.ts:33-35 | logging out after signing in and setting a token returns to the initial state, apart from the loading flag |
| AuthStore.TokenDoesNotSignIn | frontend/src/stores/authStore.ts:34 | setting a token never changes whether a session is signed in, so from the initial state it stays signed out |
| CreateAgentModal.TrimEach | frontend/src/components/CreateAgentModal.tsx:74 | `map(d => d.trim())`: same length, each piece trimmed |
| CreateAgentModal.ParseDomains | frontend/src/components/CreateAgentModal.tsx:74 | an absent or empty input gives []; no parsed domain is empty |
| CreateAgentModal.ParsedDomainsClean | frontend/src/components/CreateAgentModal.tsx:74 | every parsed domain is non-empty, comma-free and its own trim |
| CreateAgentModal.ParseDomainsRoundTrip | frontend/src/components/CreateAgentModal.tsx:74 | typing clean domains separated by commas gives that list back |
| CreateAgentModal.PayloadOf | frontend/src/components/CreateAgentModal.tsx:58-76 | the creation payload always has isActive set |
| CreateAgentModal.PayloadStored | frontend/src/components/CreateAgentModal.tsx:58-76 | a submitted form is accepted by the server, and the stored agent holds the three upstream settings under lyzrConfig, the six appearance fields under widget, the parsed domains, and is active |
| CreateAgentModal.FreshFormPasses | frontend/src/components/CreateAgentModal.tsx:44-51 | with the preset appearance fields the form passes exactly when its typed fields do; the preset colour '#3B82F6' is the server default in upper case |
| CreateAgentModal.FormSchemaMatchesServer | frontend/src/components/CreateAgentModal.tsx:11-24 | the corrected form schema accepts exactly what both the form as written and the server's create schema accept |
| CreateAgentModal.AsWrittenAcceptsRefusedName | frontend/src/components/CreateAgentModal.tsx:12 | the form as written accepts a one-character name that the server refuses with 400 |
| CreateAgentModal.ToastFor | frontend/src/components/CreateAgentModal.tsx:79-84 | success exactly for a created agent; the notice text is never empty |
| CreateAgentModal.Modal.constructor | frontend/src/components/CreateAgentModal.tsx:35 | not submitting, nothing posted, no notice |
| CreateAgentModal.Modal.Submit | frontend/src/components/CreateAgentModal.tsx:54-78 | a form failing the schema, or a submit while submitting, posts nothing; otherwise exactly its payload is posted and the flag raised |
| CreateAgentModal.Modal.Settle | frontend/src/components/CreateAgentModal.tsx:78-87 | one notice for the outcome, one more created agent on success, and the flag lowered |

## Left out

- **Network, clock, randomness.** These become parameters:
  - the `axios.post` to Lyzr is a function parameter that may fail;
  - `Date.now()`/`new Date()` is a `now` argument;
  - fresh ObjectIds are `newId` arguments not yet in the map;
  - the widget's random session id is a constructor argument;
  - the widget's `fetch` is split into the request it issues (`inFlight`) and the outcome passed to `CompleteSend`.
- **Errors and headers.**
  - A malformed ObjectId, which Mongoose rejects with a cast error (500), is treated as an unknown id.
  - Response headers (CORS, content type) and logging are not modelled.
- **Concurrency.** Handlers run one at a time. The atomicity of `$inc`/`$push` is left to the database.
- **Aggregation and floating point.**
  - MongoDB aggregation pipelines are reduced to the counts they produce.
  - Averages are real-valued means; `toFixed`/rounding of displayed figures is not modelled.
  - In `getTicketAnalytics` only the status overview is modelled, not the priority, category or daily breakdowns.
- **Handlers not modelled:**
  - `getAgentOptimization` (optimizationController.ts:29-155): only its resolution-rate expression (lines 109-111), shared with the recommendations, is modelled.
  - `testAgent` (chatController.ts:151-202): a connection check that forwards one upstream call and reports its result.
  - `getUser`, `getUserAnalytics` and the per-user ticket statistics attached by `getUsers`: read-only aggregations.
  - `getWidgetCode`, `getEmbedCode`, `handleWidgetOptions`: string templates and CORS headers.
- **Text simplifications:**
  - e-mail and URL syntax are simplified predicates: one predicate, `Text.IsEmail`, stands both for zod's `.email()` in the ticket and user request schemas and for the ticket schema's `match` regular expression, so an address one of those regular expressions would refuse may pass, and the reverse;
  - `toLowerCase` folds ASCII only;
  - string lengths count characters, not UTF-16 code units;
  - the user search is a case-insensitive substring test, not a regular expression;
  - `$` patterns in `replace` are not interpreted;
  - nested widget, lyzrConfig and subscription objects in an update replace the stored object whole.
- **Demo template.** The search for the template file over five paths is a parameter (`None` when no file exists). The fallback page's markup is represented by the three values it interpolates.
- **Widget client.**
  - DOM, CSS injection, timers, focus, auto-resize and `testConnection` are left out.
  - The widget's `messages` array is never written by the source; the displayed log is the model's `log`.
  - The welcome message is part of the markup, not the log.
- **Dashboard.**
  - The persistence middleware of the auth store is left out.
  - User.ts, the authentication middleware and jwt.ts are not part of this model. The caller is given as an id and a role.
- ChatController.FileExchange: validates the appended exchange, which the source does not (see Findings): an empty or over-long message on a continuing session is refused with no write, where the source stores it.
- ChatController.SendMessage: answers 500 for that refused append, where the source answers 200 and bumps the counters (see Findings).
- TicketController.GetTickets, UserController.GetUsers, OptimizationController.GetTrainingData: `page` and `limit` arrive as integers; a non-numeric value, which `parseInt` turns into NaN and which then reaches `skip`/`slice` and yields a null page count, is not modelled.
- WidgetController.UnescapeEscape, WidgetController.ServeWidget: a Dafny string is a sequence of Unicode scalar values, so the lone surrogates `JSON.stringify` writes as `\udxxx` cannot occur, and the reader refuses a `\u` escape of a surrogate instead of pairing it.
- CreateAgentModal.Modal.Submit: gates on the corrected form schema, not the one as written (see Findings).
- OptimizationController.UploadTrainingData: keeps the appended training data, which the handler evidently intends. Agent.ts declares no `trainingData` path, so as written the data is dropped (see Findings).
- WidgetController.ServeWidget, WidgetController.TrackPageView, OptimizationController.UpdateAgentOptimization: give the effect their handlers spell out (`pageViews` + 1, `lastSeen` = now, the settings stored), which the handlers evidently intend. Agent.ts declares none of the paths `analytics.pageViews`, `analytics.lastSeen` or `optimization`, so as written strict mode strips those writes and only `updatedAt` changes (see Findings).
- OptimizationController.GetOptimizationRecommendations: the `insights` object of the response (`unresolvedCategories`, `lowSatisfactionCount`, `trainingDataCount`) and each recommendation's description text are not modelled; descriptions embed formatted floating-point figures and category names.

## Findings

| source | as written | input that shows it | evidently intended | confidence | as-written member | corrected member |
|---|---|---|---|---|---|---|
| backend/src/controllers/chatController.ts:91-109 | continuing a session `$push`es the user message and reply without running validators | a 2001-character message on an existing session | every stored message respects the 2000-character bound of Ticket.ts:89-99, as a new session's ticket does | not executed | ChatController.UnvalidatedAppendBreaksBound | ChatController.AppendExchangeValid |
| frontend/src/components/CreateAgentModal.tsx:11-24 | the form accepts a 1-character name, any colour text and unbounded widget texts | name "A" with otherwise valid fields | the form accepts only what the server's create schema (agentController.ts:7-24) accepts | not executed | CreateAgentModal.AsWrittenAcceptsRefusedName | CreateAgentModal.FormSchemaMatchesServer |
| backend/src/controllers/optimizationController.ts:228-252 | `$push` to `trainingData`, a path the Agent schema does not declare, so strict mode drops it | one valid question/answer pair | the pairs are appended and the count is old + n | not executed | OptimizationController.UploadAsWrittenLosesData | OptimizationController.UploadAppends |
| backend/src/controllers/widgetController.ts:107-109 | `$inc` of `analytics.pageViews` (and, at lines 180-187, `$set` of `analytics.lastSeen`), paths the Agent schema does not declare, so strict mode drops them | any served widget script or tracked page view | each page view raises `pageViews` by one | not executed | WidgetController.PageViewsAsWrittenUncounted | WidgetController.PageViewsCounted |
| backend/src/controllers/optimizationController.ts:164-176 | `$set` of `optimization`, a path the Agent schema does not declare, so strict mode drops it | any valid settings object for an owned agent | the settings are stored as sent | not executed | OptimizationController.OptimizationAsWrittenLost | OptimizationController.OptimizationStored |
