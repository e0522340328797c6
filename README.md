# agenthub request handling, modelled in Dafny

agenthub is a Next.js dashboard over a Supabase (PostgreSQL) backend and
several AI and SaaS APIs. This project models its server-side request
handling:

- the permission-gated generic database dispatcher (`POST /api/db`);
- the schema configuration that says which actions each table allows;
- the four generic handlers: `select`, `insert`, `update` and `delete_`;
- the route handlers for agents, competitors, AI chat, model listing, mock
  integration data, HubSpot contacts and the integration key test;
- the small pure transforms inside them, and the start-up check of the
  provider API keys.

Each route is a function from its inputs to the HTTP response it builds.
The inputs are the parsed request, the authenticated user as an
`Option<UserId>`, the environment, and the outcomes of outside calls.
Routes that write the database also give the tables afterwards. The
database is a `Backend.Store` object, whose field `tables` maps each table
name to its rows. The write methods change that field in place. Each
method is proved equal to a pure specification function, and the lemmas
state the properties of those functions.

JavaScript behaviour the handlers depend on is modelled on purpose:

- Truthiness, as in `!name` and `!source`.
- `x?.trim()` throws a `TypeError` on any value that is neither `null`,
  `undefined` nor a string.
- `JSON.stringify` drops keys whose value is `undefined`.
- Looking up a key on an object literal falls through to
  `Object.prototype`.
- `ORDER BY created_at DESC` puts `NULL`s first, as PostgreSQL does.
- An equality filter whose value is `null` matches no row, since SQL `=` is never true of a `NULL`.
- `.single()` fails unless exactly one row comes back.
- A `throw` inside a handler ends in the route's `catch` block, with the
  status and message that block gives.

Modules, one per file: `Wrappers`, `Json` (scalar JSON values and
truthiness), `JsString` (`trim`, `toLowerCase`, `indexOf`, `replace` and
`split('/').pop()`), `Http`, `Backend`, `SchemaConfig`, `GenericHandlers`,
`Dispatcher`, `DbRoute`, `AgentsRoute`, `CompetitorsRoute`, `ChatRoute`,
`ModelsRoute`, `MockDataRoute`, `HubspotRoute`, `IntegrationTestRoute` and
`ValidateEnv`.

Where the code and its tests disagree, the model follows the code. For
example, competitors `POST` answers 201, while
src/app/api/scraping/competitors/route.test.ts:85 expects 200.

## Model

| member | source | states |
|---|---|---|
| Backend.Rows | src/lib/db/handlers/generic.ts:24-35 | a call reaches a table only when the backend serves it and the table exists; otherwise it yields the backend's error |
| Json.Truthy | src/app/api/agents/route.ts:8 | the `!x` guards: `null`, `false`, `0` and `''` are falsy and every other value is truthy |
| Backend.Matches | src/lib/db/handlers/generic.ts:15-19 | a row matches when it holds every filter column with exactly the filter's value; a `null` filter value matches no row, as SQL `=` never holds of a null |
| Backend.NullFilterMatchesNothing | src/lib/db/handlers/generic.ts:15-19 | a filter with a `null` value selects no row and keeps every row |
| Backend.Matching | src/lib/db/handlers/generic.ts:15-19 | the rows kept by equality filters are exactly the rows of the table that carry every filter column with its value, none added |
| Backend.Remaining | src/lib/db/handlers/generic.ts:50-61 | the rows a delete keeps are exactly those that fail the filters |
| Backend.Patched | src/lib/db/handlers/generic.ts:37-48 | an update patches each matching row with the payload and leaves every other row as it was, position by position |
| Backend.MatchingAppend | src/lib/db/handlers/generic.ts:15-19 | filtering keeps table order: it distributes over concatenation |
| Backend.MatchingNoFilters | src/lib/db/handlers/generic.ts:12-24 | with no filters every row is returned, in order |
| Backend.MatchingConjunction | src/lib/db/handlers/generic.ts:15-19 | chained `.eq` calls are a conjunction: filtering by f and then by g equals filtering by their union |
| Backend.MatchingRemainingSplit | src/lib/db/handlers/generic.ts:50-61 | the deleted rows plus the kept rows are the original table as a multiset |
| Backend.RemainingHasNoMatch | src/lib/db/handlers/generic.ts:50-61 | after a delete no row matches the filters |
| Backend.PatchedKeepsRemaining | src/lib/db/handlers/generic.ts:37-48 | an update that does not rewrite a filter column leaves the non-matching rows unchanged and in order |
| Backend.PatchedNothing | src/lib/db/handlers/generic.ts:37-48 | when no row matches, an update changes no row |
| Backend.CreatedAt | src/types/supabase.ts:13 | a row's `created_at` is its ISO-8601 timestamp string, or null |
| Backend.NotBefore | src/app/api/agents/route.ts:79 | timestamps compare character by character from the left |
| Backend.NotBeforeTotal | src/app/api/agents/route.ts:79 | any two timestamps are ordered one way or the other |
| Backend.NotBeforeTransitive | src/app/api/agents/route.ts:79 | the timestamp order is transitive |
| Backend.NotOlder | src/app/api/agents/route.ts:79 | in descending `created_at` order a row with a null timestamp may come first, and otherwise the later timestamp comes first |
| Backend.NotOlderTotal | src/app/api/agents/route.ts:79 | of any two rows one may come first |
| Backend.NotOlderTransitive | src/app/api/agents/route.ts:79 | the newest-first order is transitive |
| Backend.AheadOfNewest | src/app/api/agents/route.ts:79 | a row not older than the head of a newest-first list may be put in front of it |
| Backend.InsertByAge | src/app/api/agents/route.ts:79 | inserting into a newest-first list keeps it newest-first (NULL `created_at` first) and adds exactly that row |
| Backend.HeadStaysFirst | src/app/api/agents/route.ts:79 | a row that is not older than the head cannot come before it: the head stays ahead of every row inserted behind it |
| Backend.NewestFirst | src/app/api/agents/route.ts:79 | `.order('created_at', { ascending: false })` gives a permutation of the rows in newest-first order |
| Backend.LaterRowFirst | src/app/api/agents/route.ts:79 | of two rows, the one with the strictly later timestamp comes first, whichever order they were stored in |
| Backend.Insertion | src/lib/db/handlers/generic.ts:26-35 | `.insert(payload).select().single()` appends the payload over the generated columns and returns that row; on error nothing changes |
| Backend.Updating | src/lib/db/handlers/generic.ts:37-48 | `.update(payload).match(filters).select()` patches the table and returns the patched matching rows; on error nothing changes |
| Backend.SingleUpdating | src/app/api/scraping/competitors/route.ts:135-141 | an update with `.single()` stands only when exactly one row matches, and then returns that row patched; otherwise it fails and nothing changes |
| Backend.Deletion | src/lib/db/handlers/generic.ts:50-61 | `.delete().match(filters).select()` removes and returns exactly the matching rows; on error nothing changes |
| Backend.Selection | src/lib/db/handlers/generic.ts:12-24 | a select returns exactly the matching rows in table order, or the backend's error |
| Backend.Store.InsertRow | src/lib/db/handlers/generic.ts:26-35 | the method's result and the new tables are those of `Insertion` on the old tables |
| Backend.Store.UpdateWhere | src/lib/db/handlers/generic.ts:37-48 | the method's result and the new tables are those of `Updating` on the old tables |
| Backend.Store.UpdateOne | src/app/api/scraping/competitors/route.ts:135-141 | the method's result and the new tables are those of `SingleUpdating` on the old tables |
| Backend.Store.DeleteWhere | src/lib/db/handlers/generic.ts:50-61 | the method's result and the new tables are those of `Deletion` on the old tables |
| SchemaConfig.ConfigCoversSchema | src/lib/db/schemaConfig.ts:3-41 | the configuration has one entry per schema table, seven in all |
| SchemaConfig.ConfigListsOnlyTableActions | src/lib/db/schemaConfig.ts:12-41 | every action any entry lists is one of `select`, `insert`, `update` and `delete` |
| SchemaConfig.RolesAreAuthenticated | src/lib/db/schemaConfig.ts:12-41 | every entry's roles are exactly `['authenticated']` |
| SchemaConfig.Allows | src/lib/db/index.ts:37 | `tableConfig.actions.includes(action)`: the action is one the entry lists |
| SchemaConfig.LlmModelsSelectOnly | src/lib/db/schemaConfig.ts:25-28 | `llm_models` allows `select` and nothing else |
| SchemaConfig.ProfilesSelectAndUpdate | src/lib/db/schemaConfig.ts:13-16 | `profiles` allows exactly `select` and `update` |
| SchemaConfig.LookupTableNoUpdate | src/lib/db/schemaConfig.ts:33-36 | `competitor_condition_lookup` allows every action except `update` |
| SchemaConfig.FullAccessTables | src/lib/db/schemaConfig.ts:17-24 | `competitors`, `chat_messages`, `conditions` and `competitor_product_match` allow all four actions |
| GenericHandlers.SelectSpec | src/lib/db/handlers/generic.ts:12-24 | `select` succeeds exactly when the backend serves it and the table exists, and returns no more rows than the table has |
| GenericHandlers.SelectReturnsMatchingRows | src/lib/db/handlers/generic.ts:12-24 | a row is returned exactly when it is in the table and, when filters are given, matches them |
| GenericHandlers.InsertSpec | src/lib/db/handlers/generic.ts:26-35 | an error leaves the tables unchanged; a success appends the returned row to the table |
| GenericHandlers.UpdateSpec | src/lib/db/handlers/generic.ts:37-48 | without filters `update` throws "Filters required for update"; an error leaves the tables unchanged; a success keeps the table's length and returns at most that many rows |
| GenericHandlers.DeleteSpec | src/lib/db/handlers/generic.ts:50-61 | without filters `delete_` throws "Filters required for delete"; an error leaves the tables unchanged; a success returns as many rows as it removes |
| GenericHandlers.SelectWithoutFiltersReturnsAll | src/lib/db/handlers/generic.ts:12-24 | `select` without filters returns the whole table in order |
| GenericHandlers.SelectFiltersConjunctive | src/lib/db/handlers/generic.ts:15-19 | `select` returns exactly the rows matching every filter entry |
| GenericHandlers.UpdateOnlyTouchesMatchingRows | src/lib/db/handlers/generic.ts:37-48 | for any payload, `update` returns the matching rows patched; position by position a matching row gets the payload written over it and every other row, and every other table, stays as it was |
| GenericHandlers.NullFilterChangesNothing | src/lib/db/handlers/generic.ts:37-61 | a `null` filter value makes `update` and `delete_` return no rows and change nothing |
| GenericHandlers.DeleteSplitsTable | src/lib/db/handlers/generic.ts:50-61 | `delete_` returns the matching rows, keeps the others, loses nothing, and leaves no matching row |
| GenericHandlers.Select | src/lib/db/handlers/generic.ts:12-24 | the loop narrows the rows by one `.eq` per filter entry; after each step the rows are those matching every entry applied so far, and at the end exactly the specification's rows |
| GenericHandlers.Insert | src/lib/db/handlers/generic.ts:26-35 | `insert` adds the payload's row and returns it; an error leaves the tables unchanged |
| GenericHandlers.Update | src/lib/db/handlers/generic.ts:37-48 | without filters `update` throws "Filters required for update" and changes nothing; otherwise it patches the matching rows |
| GenericHandlers.Delete | src/lib/db/handlers/generic.ts:50-61 | without filters `delete_` throws "Filters required for delete" and changes nothing; otherwise it removes the matching rows |
| Dispatcher.UnconfiguredTableRejected | src/lib/db/index.ts:30-34 | a table without a configuration entry is rejected with "Table X not configured" (a `TypeError` for `Object.prototype` names); `agents`, `teams`, `integrations` and `matches` are never reached |
| Dispatcher.DisallowedActionRejected | src/lib/db/index.ts:36-39 | an action missing from the table's list is rejected with "Action A not allowed for table T" |
| Dispatcher.NoHandlerBranchUnreachable | src/lib/db/index.ts:41-45 | a request is admitted exactly when its table lists the action, and every admitted action has a handler, so "No handler found" cannot occur |
| Dispatcher.HandlerNames | src/lib/db/index.ts:15-20 | the handler map sends `delete` to `delete_` and the other three actions to the handlers of the same name, and has no other key |
| Dispatcher.HandlerFor | src/lib/db/index.ts:15-20 | `handlerMap[action]` has a handler exactly for the four table actions, and `delete` gets `delete_` |
| Dispatcher.Admit | src/lib/db/index.ts:30-45 | a request is admitted only when its table is configured and lists the action, and then with that action's handler; every configured, listed table action is admitted |
| Dispatcher.Run | src/lib/db/index.ts:47-48 | a failed handler changes nothing, `select` never changes anything, and no handler adds or removes a table |
| Dispatcher.Handle | src/lib/db/index.ts:22-49 | a failure changes nothing, and a table that is not configured or does not list the action always fails |
| Dispatcher.RolesNeverConsulted | src/lib/db/index.ts:30-45 | admission reads only the actions list: the roles never affect it |
| Dispatcher.AdmittedRequestRunsHandler | src/lib/db/index.ts:47-48 | an admitted request's result and new tables are those of the chosen handler on the same inputs |
| Dispatcher.LlmModelsNeverWritten | src/lib/db/index.ts:36-39 | no request through the dispatcher changes any table when it names `llm_models` |
| Dispatcher.ProfilesKeepTheirRows | src/lib/db/index.ts:36-39 | no request through the dispatcher adds or removes a `profiles` row |
| Dispatcher.OnlyNamedTableChanges | src/lib/db/index.ts:22-49 | a request changes at most the table it names |
| Dispatcher.HandleRequest | src/lib/db/index.ts:22-49 | the method's result and new tables are those of the guarded dispatch specification |
| DbRoute.UnauthenticatedRejectedFirst | src/app/api/db/route.ts:10-15 | without a user the answer is the text 401 "Unauthorized", before the body is read, and nothing changes |
| DbRoute.MissingFieldsRejected | src/app/api/db/route.ts:18-23 | a falsy `table` or `action` is the text 400 "Missing required fields", and nothing changes |
| DbRoute.DispatchOutcome | src/app/api/db/route.ts:26-39 | a dispatched request answers 500 exactly when the dispatcher fails, and otherwise 200 with its result; the tables are the dispatcher's |
| DbRoute.RejectedRequestChangesNothing | src/app/api/db/route.ts:36-39 | a rejected table or action is the text 500 "Internal Server Error" with every table unchanged |
| DbRoute.PostSpec | src/app/api/db/route.ts:7-39 | the route answers only 200, 400, 401 or 500; anything but 200 leaves the tables unchanged; a 200 needs a user and a well-formed body and carries JSON |
| DbRoute.Post | src/app/api/db/route.ts:9-40 | the method's response and new tables are those of the route's specification |
| AgentsRoute.PostValidatesBeforeAuth | src/app/api/agents/route.ts:6-13 | `POST` gives 400 exactly when `name` or `team_id` is falsy, for any caller; a whitespace-only name passes |
| AgentsRoute.UnauthenticatedGets401 | src/app/api/agents/route.ts:18-24 | with valid inputs and no user, all three operations give 401 and change nothing |
| AgentsRoute.PostInsertsOwnedAgent | src/app/api/agents/route.ts:27-40 | a created agent is appended with the caller's `user_id` and the given name, team and description |
| AgentsRoute.NewAgent | src/app/api/agents/route.ts:29-35 | the inserted row has exactly `name`, `team_id`, `user_id` and a `description` only when one was given, with the given values and the caller's id |
| AgentsRoute.GetReturnsOwnTeamNewestFirst | src/app/api/agents/route.ts:52-83 | `GET` returns exactly the caller's agents of the team, each as often as stored, newest first |
| AgentsRoute.DeleteOnlyOwnAgent | src/app/api/agents/route.ts:95-125 | `DELETE` never removes another user's row, adds nothing, and reports success even when nothing matched |
| AgentsRoute.BackendErrorsGive500 | src/app/api/agents/route.ts:38-47 | a database error gives 500 with the operation's fixed message and changes nothing; malformed JSON in `POST` gives 500 as well |
| AgentsRoute.PostSpec | src/app/api/agents/route.ts:4-48 | `POST` answers only 200, 400, 401 or 500; 200 exactly for valid fields, a user and a served insert into an existing table, and then the tables gain that row; any other answer changes nothing |
| AgentsRoute.Get | src/app/api/agents/route.ts:50-91 | `GET` answers only 200, 400, 401 or 500; 200 exactly for a given team, a user and a served query, with the rows newest first |
| AgentsRoute.DeleteSpec | src/app/api/agents/route.ts:93-133 | `DELETE` answers only 200, 400, 401 or 500; 200 exactly for a given id, a user and a served delete, and then the tables lose exactly the caller's rows with that id; any other answer changes nothing |
| AgentsRoute.Post | src/app/api/agents/route.ts:4-48 | the method's response and new tables are those of the `POST` specification |
| AgentsRoute.Delete | src/app/api/agents/route.ts:93-133 | the method's response and new tables are those of the `DELETE` specification |
| CompetitorsRoute.CheckName | src/app/api/scraping/competitors/route.ts:48-50 | `!name?.trim()` passes exactly a string that is not all whitespace; a value that is neither a string, `null` nor absent throws |
| CompetitorsRoute.PostRejectsBlankName | src/app/api/scraping/competitors/route.ts:48-50 | `POST` gives 400 "Name is required" exactly for a missing, `null` or whitespace-only name |
| CompetitorsRoute.CheckNameTrims | src/app/api/scraping/competitors/route.ts:48-50 | on a string name the check is exactly `trim` returning `''` or not |
| CompetitorsRoute.Create | src/app/api/scraping/competitors/route.ts:52-67 | the insert answers 201 or 500, and a 500 leaves every table as it was |
| CompetitorsRoute.Rename | src/app/api/scraping/competitors/route.ts:134-148 | the single-row update answers 200 or 500, and a 500 leaves every table as it was |
| CompetitorsRoute.PutWithId | src/app/api/scraping/competitors/route.ts:121-128 | once the URL ends in a non-empty id, `PUT` goes on to read the body for that id |
| CompetitorsRoute.EditRejectsBlankName | src/app/api/scraping/competitors/route.ts:130-132 | for a well-formed body, 400 "Name is required" comes exactly for a missing, `null` or whitespace-only name |
| CompetitorsRoute.PutReportsUpdate | src/app/api/scraping/competitors/route.ts:121-148 | `PUT` with an id and a name that passes the check is exactly the single-row update of that id with that name and `website_url` |
| CompetitorsRoute.PutRejectsBlankName | src/app/api/scraping/competitors/route.ts:130-132 | `PUT` gives 400 "Name is required" exactly for a missing, `null` or whitespace-only name |
| CompetitorsRoute.UntrimmableNameIs500 | src/app/api/scraping/competitors/route.ts:68-71 | a name that is neither absent, `null` nor a string makes `trim` throw: 500 "Internal server error" in `POST`, the `TypeError`'s message in `PUT` |
| CompetitorsRoute.AuthenticationComesFirst | src/app/api/scraping/competitors/route.ts:10-13 | every operation gives 401 without a user before looking at the request; `GET` also for an empty session user id |
| CompetitorsRoute.PostCreatesOwnedCompetitor | src/app/api/scraping/competitors/route.ts:52-67 | a created competitor is appended, owned by the database user, with the untrimmed name and any `website_url`, and answered with 201 |
| CompetitorsRoute.WithUrl | src/app/api/scraping/competitors/route.ts:54-57 | the row or patch has exactly the untrimmed `name` and a `website_url` only when one was given |
| CompetitorsRoute.GetReturnsOwnNewestFirst | src/app/api/scraping/competitors/route.ts:16-23 | `GET` returns exactly the session user's competitors, newest first |
| CompetitorsRoute.DeleteOnlyOwnCompetitor | src/app/api/scraping/competitors/route.ts:92-100 | `DELETE` removes exactly the caller's rows with that id and keeps every other row |
| CompetitorsRoute.DeleteErrorMessage | src/app/api/scraping/competitors/route.ts:101-107 | a delete error is reported with its message only when it is an `Error` object |
| CompetitorsRoute.PutRenamesOnlyOwnRow | src/app/api/scraping/competitors/route.ts:121-148 | `PUT …/<id>` patches the caller's single row with that id and keeps every other row; when no row or several rows match it fails with 500 and changes nothing |
| CompetitorsRoute.Get | src/app/api/scraping/competitors/route.ts:8-28 | `GET` answers only 200, 401 or 500; 200 exactly for a non-empty session user id and a served query, with the rows newest first |
| CompetitorsRoute.PostSpec | src/app/api/scraping/competitors/route.ts:30-72 | `POST` answers only 201, 400, 401 or 500; 201 exactly for a session user, a database user, a well-formed body whose name passes the check and a served insert; any other answer changes nothing |
| CompetitorsRoute.DeleteSpec | src/app/api/scraping/competitors/route.ts:74-108 | `DELETE` answers only 200, 400, 401 or 500; 200 exactly for a user, a given id and a served delete, and then the tables lose exactly the caller's rows with that id; any other answer changes nothing |
| CompetitorsRoute.PutSpec | src/app/api/scraping/competitors/route.ts:110-156 | `PUT` answers only 200, 400, 401 or 500; a 200 needs a user and a non-empty id at the end of the URL; any other answer changes nothing |
| CompetitorsRoute.Edit | src/app/api/scraping/competitors/route.ts:130-148 | once the id is read, the answer is 200, 400 or 500; 200 exactly for a well-formed body whose name passes the check, a served update and exactly one of the caller's rows with that id; any other answer changes nothing |
| CompetitorsRoute.Post | src/app/api/scraping/competitors/route.ts:30-72 | the method's response and new tables are those of the `POST` specification |
| CompetitorsRoute.Delete | src/app/api/scraping/competitors/route.ts:74-108 | the method's response and new tables are those of the `DELETE` specification |
| CompetitorsRoute.Put | src/app/api/scraping/competitors/route.ts:110-156 | the method's response and new tables are those of the `PUT` specification |
| JsString.TrimStart | src/app/api/scraping/competitors/route.ts:48 | strips exactly a blank prefix, leaving a suffix that is empty or starts with a non-blank |
| JsString.IsWhitespace | src/app/api/scraping/competitors/route.ts:48 | the characters `trim` removes: the ECMAScript white space and line terminators, including no-break space, the Unicode space separators and the byte order mark |
| JsString.TrimEnd | src/app/api/scraping/competitors/route.ts:48 | strips exactly a blank suffix, leaving a prefix that is empty or ends with a non-blank |
| JsString.Trim | src/app/api/scraping/competitors/route.ts:48 | neither end of the result of `trim` is whitespace |
| JsString.TrimIsInfix | src/app/api/scraping/competitors/route.ts:48 | `trim` returns the infix between a blank prefix and a blank suffix |
| JsString.TrimEmptyIffBlank | src/app/api/integrations/test/route.ts:30 | `!s.trim()` holds exactly when every character is whitespace |
| JsString.ToLower | src/app/api/integrations/mock-data/route.ts:71 | `toLowerCase` keeps the length and lower-cases each letter in place |
| JsString.IndexOf | src/app/api/providers/models/route.ts:25 | the result is an occurrence of the pattern, and no earlier occurrence exists; no result means no occurrence |
| JsString.StartsWith | src/app/api/providers/models/route.ts:21 | `startsWith`: the prefix is an initial segment of the string |
| JsString.ReplaceFirst | src/app/api/providers/models/route.ts:25 | `replace` with a string pattern rewrites only the first occurrence; `ReplaceFirstAtIndexOf` states its value |
| JsString.ReplaceFirstAtIndexOf | src/app/api/providers/models/route.ts:25 | `replace` splices the replacement in at the first occurrence, and returns the string unchanged without one |
| JsString.ReplaceFirstAbsent | src/app/api/providers/models/route.ts:25 | without an occurrence `replace` returns the string unchanged |
| JsString.ReplaceFirstPresent | src/app/api/providers/models/route.ts:25 | with the first occurrence at `i`, `replace` splices the replacement in at `i` |
| JsString.ReplaceFirstKeepsLength | src/app/api/providers/models/route.ts:25 | a replacement as long as the pattern keeps the string's length |
| JsString.LastSegment | src/app/api/scraping/competitors/route.ts:122 | `split('/').pop()` is the longest `/`-free suffix |
| JsString.LastSegmentAfterSlash | src/app/api/scraping/competitors/route.ts:122 | for a URL ending in `/<id>`, the id is taken whatever precedes it |
| ChatRoute.IsOpenAIChatModel | src/app/api/ai/chat/route.ts:23-32 | true for exactly the four supported model strings |
| ChatRoute.MissingFields | src/app/api/ai/chat/route.ts:38 | the request lacks a field: an absent or empty message list, or a falsy provider or model |
| ChatRoute.ClientsBuilt | src/app/api/ai/chat/route.ts:9-11 | the module loads exactly when `PROVIDER_OPENAI_API_KEY` or the client's fallback `OPENAI_API_KEY` is defined |
| ChatRoute.FirstChoice | src/app/api/ai/chat/route.ts:80 | `choices[0].message.content` is the first choice's content, and an empty list throws the `TypeError` for `message` |
| ChatRoute.FirstText | src/app/api/ai/chat/route.ts:96 | the first block's text when it is a text block, otherwise `''`; no block throws the `TypeError` for `type` |
| ChatRoute.ClaudeRole | src/app/api/ai/chat/route.ts:90-93 | the mapped role is `user` or `assistant`, and `user` exactly when the role was `user` |
| ChatRoute.ClaudeMessages | src/app/api/ai/chat/route.ts:90-93 | one message per input message, in order, with the content kept and the role mapped |
| ChatRoute.ClaudeRolesNormalised | src/app/api/ai/chat/route.ts:90-93 | Claude only receives the roles `user` and `assistant`; a message keeps `user` exactly when it had it; mapping twice changes nothing more |
| ChatRoute.ValidationBeforeAuth | src/app/api/ai/chat/route.ts:38-53 | once the module has loaded, empty or missing `messages`, or a missing `provider` or `model`, gives 400 for any caller; otherwise no user gives 401 |
| ChatRoute.UnsupportedProviderRejected | src/app/api/ai/chat/route.ts:121-125 | any other provider gives 400 "Unsupported provider" |
| ChatRoute.OpenAIKeyBeforeModel | src/app/api/ai/chat/route.ts:58-68 | once the module has loaded, a `PROVIDER_OPENAI_API_KEY` that is empty, or absent with `OPENAI_API_KEY` defined, gives 500 "OpenAI API key not configured" even for an unsupported model; with the key set, an unsupported model gives 400 |
| ChatRoute.Answer | src/app/api/ai/chat/route.ts:78-81 | the reply is 200 `{ role: 'assistant', content }` with exactly the provider's content, and a failure to read the content is 500 with that error's message |
| ChatRoute.AskOpenAI | src/app/api/ai/chat/route.ts:58-81 | the OpenAI branch answers only 200, 400, 401 or 500, and its 200 is always an assistant message |
| ChatRoute.AskClaude | src/app/api/ai/chat/route.ts:83-98 | the Claude branch answers only 200, 400, 401 or 500, and its 200 is always an assistant message |
| ChatRoute.AskPerplexity | src/app/api/ai/chat/route.ts:100-119 | the Perplexity branch answers only 200, 400, 401 or 500, and its 200 is always an assistant message |
| ChatRoute.RepliesAreAssistantMessages | src/app/api/ai/chat/route.ts:34-134 | the route answers only 200, 400, 401 or 500, and every 200 is a `{ role: 'assistant', content }` reply |
| ChatRoute.ClaudeExchange | src/app/api/ai/chat/route.ts:83-98 | Claude is sent the model, `max_tokens` 1000 and the mapped roles; the reply is its first text block, or `''` when that block is not text |
| ChatRoute.EmptyReplyIs500 | src/app/api/ai/chat/route.ts:78-81 | an empty list of choices, or a Perplexity body without `choices`, ends in the `TypeError`'s 500 |
| ChatRoute.Post | src/app/api/ai/chat/route.ts:9-134 | without either OpenAI key variable every request gets the framework's 500 with no body of the route's; otherwise the route answers only 200, 400, 401 or 500 and every 200 is an assistant reply; a 200 needs a well-formed body with the fields and a user; 401 comes exactly for a loaded module and a well-formed, complete body without a user |
| ChatRoute.Ask | src/app/api/ai/chat/route.ts:56-125 | the provider switch answers only 200, 400 or 500, never 401; a 400 for a known provider is the OpenAI branch's unsupported model |
| ChatRoute.OpenAIExchange | src/app/api/ai/chat/route.ts:58-81 | with the key set and a supported model, OpenAI is sent the model and messages, and its first choice's content is the reply's content |
| ChatRoute.PerplexityExchange | src/app/api/ai/chat/route.ts:100-119 | with the key set, Perplexity is sent the model and messages, and its first choice's content is the reply's content |
| ChatRoute.UnbuiltClientFailsEveryRequest | src/app/api/ai/chat/route.ts:9-11 | without `PROVIDER_OPENAI_API_KEY` and `OPENAI_API_KEY`, every request for any provider and caller gets the framework's 500 and never a `{ error }` body of the route's |
| ChatRoute.EmptyOpenAIKeyNotConfigured | src/app/api/ai/chat/route.ts:9-61 | an empty `PROVIDER_OPENAI_API_KEY` lets the module load and is then answered 500 "OpenAI API key not configured" |
| ModelsRoute.ChatModels | src/app/api/providers/models/route.ts:20-26 | every model kept has a chat prefix and its display name, and a listed id with a chat prefix is never dropped |
| ModelsRoute.ChatModelsAppend | src/app/api/providers/models/route.ts:20-26 | the filter keeps listing order |
| ModelsRoute.ChatModelsOfOne | src/app/api/providers/models/route.ts:20-26 | a single id is kept, under its display name, exactly when it has a chat prefix |
| ModelsRoute.ChatModelIdIffPrefix | src/app/api/providers/models/route.ts:3 | the chat ids are exactly those starting with `gpt-3.5-turbo` or `gpt-4` |
| ModelsRoute.IsChatModelId | src/app/api/providers/models/route.ts:20-22 | `CHAT_MODEL_PREFIXES.some(prefix => id.startsWith(prefix))`; `ChatModelIdIffPrefix` names the two prefixes |
| ModelsRoute.DisplayNameOfTurboId | src/app/api/providers/models/route.ts:25 | `gpt-<v>-turbo<rest>` is shown as `GPT-<v> Turbo<rest>` |
| ModelsRoute.DisplayNameWithoutTurbo | src/app/api/providers/models/route.ts:25 | `gpt-<rest>` with no `-` after the prefix only has the prefix upper-cased |
| ModelsRoute.DisplayNameOfGpt35Turbo | src/app/api/providers/models/route.ts:25 | `gpt-3.5-turbo` is shown as `GPT-3.5 Turbo` |
| ModelsRoute.DisplayNameOfGpt4TurboPreview | src/app/api/providers/models/route.ts:25 | `gpt-4-turbo-preview` is shown as `GPT-4 Turbo-preview` |
| ModelsRoute.DisplayNameOfGpt4 | src/app/api/providers/models/route.ts:25 | `gpt-4` is shown as `GPT-4` |
| ModelsRoute.StaticLists | src/app/api/providers/models/route.ts:29-39 | `claude` and `perplexity` answer with their fixed two-model lists |
| ModelsRoute.StatusMapping | src/app/api/providers/models/route.ts:41-73 | a missing provider gives 400, an unknown one 500 "Unsupported provider", a refused listing 500, and a listing without chat models 404 |
| ModelsRoute.Get | src/app/api/providers/models/route.ts:46-75 | `GET` answers only 200, 400, 404 or 500; 400 exactly for a missing provider; a 200 carries a non-empty list; 404 only for `openai` |
| ModelsRoute.ProviderModels | src/app/api/providers/models/route.ts:5-44 | an unknown provider throws "Unsupported provider"; `openai` lists only chat models under their display names; `claude` and `perplexity` give their fixed lists |
| ModelsRoute.DisplayName | src/app/api/providers/models/route.ts:25 | the display name is as long as the id |
| ModelsRoute.ListingAuthorization | src/app/api/providers/models/route.ts:8-12 | the listing is authenticated with `Bearer ` and the key, or `Bearer undefined` when it is unset |
| MockDataRoute.SourceBeforeAuth | src/app/api/integrations/mock-data/route.ts:45-65 | a falsy `source` gives 400 for any caller; otherwise no user gives 401 |
| MockDataRoute.CaseInsensitive | src/app/api/integrations/mock-data/route.ts:71 | a source and its lower-case spelling get the same answer |
| MockDataRoute.OnlyKnownSourcesAnswer | src/app/api/integrations/mock-data/route.ts:71-80 | the five integrations, in any case, answer with their data; every other source gives 404 |
| MockDataRoute.AnswerByKey | src/app/api/integrations/mock-data/route.ts:71-80 | past the shared checks, the corrected lookup answers an integration's data for its key and 404 for any other key |
| MockDataRoute.AsWrittenByKey | src/app/api/integrations/mock-data/route.ts:71-80 | past the shared checks, the lookup as written answers own keys with their data, `__proto__` with `{}`, other inherited names with 500, and the rest with 404 |
| MockDataRoute.AsWrittenAgreesOffPrototype | src/app/api/integrations/mock-data/route.ts:71-80 | the lookup as written answers like the intended one for every key that is not an `Object.prototype` member |
| MockDataRoute.HubspotHasContacts | src/app/api/integrations/mock-data/route.ts:20-26 | `hubspot` answers 200 with its three `contacts` |
| MockDataRoute.NonStringSourceFails | src/app/api/integrations/mock-data/route.ts:81-87 | a truthy source that is not a string gives 500 "Failed to fetch mock data" |
| MockDataRoute.LookupAsWritten | src/app/api/integrations/mock-data/route.ts:71 | `mockData[key]` finds an own entry exactly for the five keys, and an inherited member exactly for `Object.prototype` names |
| MockDataRoute.ProtoSourceAsWritten | src/app/api/integrations/mock-data/route.ts:71-80 | as written, `__PROTO__` is answered 200 with `{}`; the corrected lookup answers 404 |
| MockDataRoute.ConstructorSourceAsWritten | src/app/api/integrations/mock-data/route.ts:71-87 | as written, `constructor` ends in 500; the corrected lookup answers 404 |
| MockDataRoute.SourceKey | src/app/api/integrations/mock-data/route.ts:45-71 | a lookup key exists exactly for a well-formed body with a truthy string source and a user, and it is the source lower-cased; otherwise the answer is 400, 401 or 500 |
| MockDataRoute.PostAsWritten | src/app/api/integrations/mock-data/route.ts:43-87 | the route as written answers only 200, 400, 401, 404 or 500, and an empty 200 object comes only from the key `__proto__` |
| MockDataRoute.Post | src/app/api/integrations/mock-data/route.ts:43-87 | the corrected route answers only 200, 400, 401, 404 or 500; a 200 carries an integration's data, and 404 comes exactly for a key that names no integration |
| HubspotRoute.ToContact | src/app/api/integrations/hubspot/route.ts:55-61 | the contact keeps the id, defaults email, company and phone to `''`, and its name is `trim(firstname + ' ' + lastname)`, with no surrounding whitespace |
| HubspotRoute.ToContacts | src/app/api/integrations/hubspot/route.ts:55-61 | one contact per result, in the same order |
| HubspotRoute.ToContactsAppend | src/app/api/integrations/hubspot/route.ts:55 | the mapping distributes over concatenation |
| HubspotRoute.Property | src/app/api/integrations/hubspot/route.ts:57-60 | a property's value, or `''` when it is absent |
| HubspotRoute.FullNameJoinsParts | src/app/api/integrations/hubspot/route.ts:57 | a trimmed first and last name are joined by one space |
| HubspotRoute.FullNameWithMissingParts | src/app/api/integrations/hubspot/route.ts:57 | a missing part leaves no stray space, and no parts give `''` |
| HubspotRoute.ApiKey | src/app/api/integrations/hubspot/route.ts:29-37 | a key is found exactly when the lookup is served and returns exactly one row whose `api_key` is truthy, and the key is that row's `api_key` |
| HubspotRoute.GuardOrder | src/app/api/integrations/hubspot/route.ts:9-26 | a falsy `integrationId` gives 400 for any caller; otherwise no user gives 401 |
| HubspotRoute.NoKeyIs500 | src/app/api/integrations/hubspot/route.ts:35-37 | without exactly one matching integration the answer is 500 "Failed to get API key" |
| HubspotRoute.HubspotErrorMessage | src/app/api/integrations/hubspot/route.ts:47-50 | a refused HubSpot request reports its body's `message`, or "HubSpot API error" without one |
| HubspotRoute.FullName | src/app/api/integrations/hubspot/route.ts:57 | the name has no surrounding whitespace and is no longer than both parts and the space |
| HubspotRoute.Post | src/app/api/integrations/hubspot/route.ts:5-70 | the route answers only 200, 400, 401 or 500; a 200 needs a well-formed `integrationId`, a user and a found API key |
| HubspotRoute.ContactsListed | src/app/api/integrations/hubspot/route.ts:40-63 | a listing answers 200 with one contact per result, a fetch that throws answers 500 with its message, and a body without `results` answers 500 |
| IntegrationTestRoute.FieldsBeforeAuth | src/app/api/integrations/test/route.ts:9-27 | a falsy `integrationId` or `apiKey` gives 400 for any caller; otherwise no user gives 401 |
| IntegrationTestRoute.BlankKeyIffRejected | src/app/api/integrations/test/route.ts:30-41 | a whitespace-only key gives 400 "API key cannot be empty", and any other string key succeeds |
| IntegrationTestRoute.NonStringKeyFails | src/app/api/integrations/test/route.ts:30 | a truthy non-string key makes `trim` throw: 500 "Failed to test connection" |
| IntegrationTestRoute.SuccessIsUnconditional | src/app/api/integrations/test/route.ts:38-41 | every 200 is `{ success: true, message: 'Connection test successful' }` |
| IntegrationTestRoute.Post | src/app/api/integrations/test/route.ts:5-48 | the route answers only 200, 400, 401 or 500; a 200 needs a well-formed body, a user and a string key that is not blank |
| ValidateEnv.Unset | src/lib/validate-env.ts:8-10 | the filter keeps exactly the keys that are unset or empty |
| ValidateEnv.Missing | src/lib/validate-env.ts:2-10 | `missing` has at most three keys, and is empty exactly when every provider key is set |
| ValidateEnv.Validate | src/lib/validate-env.ts:12-17 | the result is false exactly when `missing` is non-empty, and exactly then a warning is printed |
| ValidateEnv.Join | src/lib/validate-env.ts:13 | `join`: no parts give `''`, one part is itself, and `JoinThree` puts the separator between neighbours |
| ValidateEnv.MissingExactly | src/lib/validate-env.ts:2-10 | `missing` holds exactly the three provider keys that are unset or empty |
| ValidateEnv.UnsetAppend | src/lib/validate-env.ts:8-10 | the filter keeps key order |
| ValidateEnv.UnsetOfThree | src/lib/validate-env.ts:8-10 | on three keys the filter keeps each unset one in its place |
| ValidateEnv.MissingInDeclarationOrder | src/lib/validate-env.ts:2-10 | `missing` lists OpenAI, Claude, Perplexity, in that order, skipping the set ones |
| ValidateEnv.NothingSetWarnsAboutAll | src/lib/validate-env.ts:12-14 | with nothing set, the warning names all three keys, joined by `, ` |
| ValidateEnv.JoinThree | src/lib/validate-env.ts:12-14 | joining three names puts the separator between each pair |
| ValidateEnv.OnlyProviderKeysMatter | src/lib/validate-env.ts:2-6 | environments that agree on the three keys validate alike |

## Left out

- Authentication, cookies and Supabase client construction are not modelled. The user comes in as an input: `None` stands for both an auth error and an absent user.
- The database is an abstract map from table names to rows. Outside calls are opaque inputs: `CallOutcome` for the database, functions for the AI providers and HubSpot, and a `Listing` for the OpenAI model list.
- Columns that the database generates (`id`, `created_at`) are an input row, `generated`, to each insert.
- Backend.CreatedAt: `created_at` values are ISO-8601 strings in the one fixed format and time zone the database returns, so character order is time order. Other spellings of the same instant are not modelled, and a `created_at` that is not a string is read as null.
- Row-level security, foreign keys and column types are left out. So are the PostgREST rules for a filter column that does not exist.
- An insert or update with an absent payload fails with the single error "Empty or invalid json".
- Whether a PostgREST error is an `Error` instance is an opaque flag on `DbError`.
- `console.error` and `console.warn` calls are left out, except that `ValidateEnv.Validate` returns the warning text.
- The one-second `setTimeout` in the mock-data route is left out.
- `toLowerCase` is modelled on the ASCII letters A-Z only. Other Unicode case mappings, such as the Kelvin sign lowering to `k`, are not modelled.
- Request bodies are objects with scalar fields, or `Malformed` carrying the message of the error thrown while reading them. A JSON `null` body makes destructuring throw, and is folded into `Malformed`.
- Chat message roles and contents are strings. Provider errors are `Error` objects with a message.
- HubSpot properties are strings, where an absent property and a `null` one are the same.
- A HubSpot contact without a `properties` object is not modelled.
- The API key goes into HubSpot's `Bearer` header. The fetch function receives the key's value rather than the header text.
- CompetitorsRoute.TrimTypeError: the message is V8's wording for `name?.trim()` on a value that has no `trim`. Other engines word it differently.
- Backend.SingleUpdating: when several rows match, the table is modelled as rolled back. This is what PostgREST does for a request that asks for a single object.
- The OpenAI SDK is not part of this model. ChatRoute.ClientsBuilt states its constructor's key check as the openai-node v4 client does it: an undefined key falls back to `OPENAI_API_KEY`, and the constructor throws when neither is defined. The Anthropic client is taken not to check its key at construction.
- `next-auth` session lookup is only the `sessionUser` input of competitors `GET` and `POST`.

## Findings

| source | as written | input that shows it | evidently intended | confidence | as-written member | corrected member |
|---|---|---|---|---|---|---|
| src/app/api/integrations/mock-data/route.ts:71-80 | `mockData[source.toLowerCase()]` also finds properties inherited from `Object.prototype` | `{"source": "__PROTO__"}` is answered 200 with `{}`; `{"source": "constructor"}` is answered 500 | every source other than the five integrations is answered 404 "No data available for this integration" | high; not executed | MockDataRoute.PostAsWritten (shown by MockDataRoute.ProtoSourceAsWritten and MockDataRoute.ConstructorSourceAsWritten) | MockDataRoute.Post (proved by MockDataRoute.OnlyKnownSourcesAnswer) |
