# Cognitive persuasion front end — verified model

This project is a Dafny model of the logic inside the React front end of the
cognitive persuasion engine. That logic covers:

- the business and audience list views;
- the browser-fingerprint hash of the anonymous app;
- the in-memory mock backend;
- the simulated five-agent live chat;
- the two conversation dashboards, with their start, pause, resume, stop and reset state machines;
- the API request wrapper, the authentication provider and dashboard navigation;
- the tier picker, the AI-search publishing panel, the credit store and the response cards;
- the endpoint table.

The front end talks to a remote HTTP/JSON backend. Every answer from that
backend is an input to the model: a `Call<T>`, which is either a returned
value or a thrown message. Clocks, `Math.random` draws and timer firings
are parameters or separate methods.

Modules and the source files they model:

| module | file | form |
|---|---|---|
| `Values`, `Seqs`, `Text` | shared helpers: optional values, JavaScript truthiness, filters, ASCII lower-casing, substring search, decimal rendering | pure |
| `BusinessList` | src/components/BusinessList.jsx | pure |
| `NoAuthApp` | src/App_no_auth.jsx | mixed: `HashCode` is a loop; `LegalModal` is a class |
| `MockBackend` | src/mockApi.js | class `MockApi` |
| `LiveChat` | src/components/LiveChat.jsx | class `ChatSession` with the agent loop; the templates are pure |
| `ConversationDashboard` | src/components/AIConversationDashboard.jsx | class `Dashboard` |
| `ConversationPanel` | src/components/ai_conversations.py (JSX despite its name) | class `Panel` |
| `App` | src/App.jsx | classes `ApiService`, `AuthProvider`, `SessionsView`, `Dashboard`; pure routing |
| `AudienceSelector` | src/components/AudienceSelector.jsx | pure |
| `TierSelector` | src/components/RefinedTierSelector.jsx | class `Selector`; pure rule tables |
| `SearchImpact` | src/components/AISearchImpact.jsx | class `ImpactPanel`; pure classifiers |
| `CreditPricing` | src/components/CreditPricing.jsx | class `Pricing`; pure rule tables |
| `ResponseDisplay` | src/components/AIResponseDisplay.jsx | pure; class `CopyFeedback` |
| `Config` | src/config.js | pure |

How the model represents the source:

- Prices are integer cents or whole dollars.
- Strings are `seq<char>`, lower-cased over ASCII only.
- The 32-bit arithmetic of the hash is written out with ECMAScript's ToInt32 (section 7.1.6 of ECMA-262).
- `alert` calls, requests sent and callbacks made are recorded as sequences on the objects that make them.

## Model

| member | source | states |
|---|---|---|
| BusinessList.FilterBusinesses | src/components/BusinessList.jsx:17-22 | a business is kept iff its lower-cased name, or its description when present, contains the lower-cased term and the category is `all` or its own; the result is a subsequence of the input holding each kept business as often as the input does |
| BusinessList.EmptyFilterKeepsAll | src/components/BusinessList.jsx:17-21 | an empty term with category `all` keeps every business, in order |
| BusinessList.ModeOf | src/components/BusinessList.jsx:25-32 | `name` and `category` select their orderings; every other value falls to the recent-first default |
| BusinessList.LexTotal | src/components/BusinessList.jsx:27 | the name comparison orders any two strings |
| BusinessList.LexTransitive | src/components/BusinessList.jsx:27 | the name comparison is transitive |
| BusinessList.InOrderTotal | src/components/BusinessList.jsx:24-34 | each of the three sort orders relates any two businesses one way or the other |
| BusinessList.InOrderTransitive | src/components/BusinessList.jsx:24-34 | each of the three sort orders is transitive |
| BusinessList.Insert | src/components/BusinessList.jsx:24-34 | one insertion step adds exactly the new business to the multiset |
| BusinessList.ConsSorted | src/components/BusinessList.jsx:24-34 | a head ordered before a sorted tail gives a sorted list |
| BusinessList.HeadBeforeInsert | src/components/BusinessList.jsx:24-34 | the head of a sorted list stays before everything of the insertion into its tail |
| BusinessList.InsertSorted | src/components/BusinessList.jsx:24-34 | inserting into a sorted list keeps it sorted |
| BusinessList.SortBusinesses | src/components/BusinessList.jsx:24-34 | the sorted copy is a permutation of the filtered list, ordered by name, by category (missing as empty) or by creation time descending (missing as 0) |
| BusinessList.JsSlice | src/components/BusinessList.jsx:39 | `slice` with clamped bounds: at most `end - start` items, a contiguous piece of the list |
| BusinessList.SliceMultiset | src/components/BusinessList.jsx:39 | a slice takes nothing that is not in the list |
| BusinessList.TotalPages | src/components/BusinessList.jsx:14-37 | `ceil(n / 20)`: enough pages for every item and no empty last page |
| BusinessList.Page | src/components/BusinessList.jsx:38-39 | page p is the slice from `(p-1)*20` of at most 20 items |
| BusinessList.PageNonEmpty | src/components/BusinessList.jsx:37-39 | a page from 1 on holds items iff it is at most the page count |
| BusinessList.PageSlice | src/components/BusinessList.jsx:38-39 | page k is the slice between the k-1-th and the k-th multiple of 20 |
| BusinessList.PagesPrefix | src/components/BusinessList.jsx:37-39 | the first k pages together are the list's first `20k` items |
| BusinessList.PagesReassemble | src/components/BusinessList.jsx:37-39 | pages 1..totalPages concatenate back to the sorted list |
| BusinessList.RowNumber | src/components/BusinessList.jsx:58 | the row number `startIndex + index + 1` is the 1-based position of that row's business in the sorted list |
| BusinessList.ShowingUpper | src/components/BusinessList.jsx:176 | the "Showing" upper bound is the last position on the current page |
| BusinessList.PreviousPage | src/components/BusinessList.jsx:219 | Previous goes one page back, never below 1 |
| BusinessList.NextPage | src/components/BusinessList.jsx:256 | Next goes one page on, never beyond the page count |
| BusinessList.ClampsStayInRange | src/components/BusinessList.jsx:219-256 | with at least one page, both buttons keep the page within `[1, totalPages]` |
| BusinessList.PageWindow | src/components/BusinessList.jsx:227-237 | `min(5, totalPages)` consecutive numbers within `[1, totalPages]` that include the current page |
| BusinessList.CategoryValues | src/components/BusinessList.jsx:42 | the categories of the businesses whose category is non-empty, one per such business, in list order (the i-th value is the category of the i-th such business) |
| BusinessList.Distinct | src/components/BusinessList.jsx:42 | the `Set` keeps exactly the same members, without duplicates, ordered by where each first occurs in the input |
| BusinessList.Categories | src/components/BusinessList.jsx:42 | the category list has no duplicates and no empty values, holds exactly the categories of the businesses, and lists them in the order of the first business carrying each |
| BusinessList.DistinctCategoriesOrdered | src/components/BusinessList.jsx:42 | de-duplicating the category values orders the categories by the first business carrying each |
| BusinessList.EmptyStateHint | src/components/BusinessList.jsx:185-189 | the "try adjusting" hint appears iff a term or a category filter is set |
| BusinessList.RowsMatch | src/components/BusinessList.jsx:17-39 | every displayed row is a business of the input that passes both filters |
| NoAuthApp.ToInt32 | src/App_no_auth.jsx:68-69 | the signed 32-bit value congruent to its argument modulo 2^32 |
| NoAuthApp.ToInt32Congruent | src/App_no_auth.jsx:68-69 | congruent numbers convert to the same 32-bit value |
| NoAuthApp.HashOf | src/App_no_auth.jsx:64-70 | the running hash always lies in `[-2^31, 2^31)` |
| NoAuthApp.StepIsTimes31 | src/App_no_auth.jsx:68-69 | one step `((h << 5) - h) + c` followed by `h & h` equals `ToInt32(31h + c)` |
| NoAuthApp.HashCode | src/App_no_auth.jsx:64-72 | the loop computes `Math.abs(hash).toString(16)` of the recurrence's final value |
| NoAuthApp.EmptyHash | src/App_no_auth.jsx:64-71 | the empty string hashes to `"0"` |
| NoAuthApp.HashHexShape | src/App_no_auth.jsx:71 | the fingerprint has 1 to 8 lower-case hex digits, no sign, and a value of at most 2^31 |
| NoAuthApp.SessionIdInjective | src/App_no_auth.jsx:80 | `fingerprint_timestamp` determines both the hex fingerprint and the timestamp |
| NoAuthApp.Prefix | src/App_no_auth.jsx:219 | `substring(0, n)` is the prefix of length `min(n, len)` |
| NoAuthApp.SessionBadge | src/App_no_auth.jsx:216-220 | the badge shows iff session information exists; it reads the fingerprint's first 8 characters, or `browser` |
| NoAuthApp.BadgeShowsWholeHash | src/App_no_auth.jsx:219 | a hash fingerprint is never cut short by the badge |
| NoAuthApp.PhoneDigits | src/App_no_auth.jsx:240 | only digits remain, in order, each digit as often as in the input |
| NoAuthApp.WhatsAppUrl | src/App_no_auth.jsx:239-241 | a URL exists iff a number is present; it is `https://wa.me/` followed by the number's digits |
| NoAuthApp.DigitsUnchanged | src/App_no_auth.jsx:240 | a number written only in digits is kept as it is |
| NoAuthApp.FindTitle | src/App_no_auth.jsx:309 | the title of the first page with that slug, absent iff none has it |
| NoAuthApp.FallbackTitle | src/App_no_auth.jsx:294-309 | the four static pages give their titles; any other slug gives `Legal Page` |
| NoAuthApp.LegalModal.Heading | src/App_no_auth.jsx:326 | without a selected page the heading is `Legal Information` |
| NoAuthApp.LegalModal.HandlePageSelect | src/App_no_auth.jsx:300-314 | the page is selected either way; a failure shows the fallback title and content |
| NoAuthApp.LegalModal.HandleBack | src/App_no_auth.jsx:316-319 | back clears the page and its content, and the heading returns to the list's |
| MockBackend.MockApi.constructor | src/mockApi.js:3-36 | an empty user map, no current user and the seed business types and audiences |
| MockBackend.MockApi.Register | src/mockApi.js:38-59 | a duplicate email throws and changes nothing; otherwise the user is stored with the password, becomes current without it with a zero balance, and gets the mock token |
| MockBackend.MockApi.Login | src/mockApi.js:62-77 | an unknown email or wrong password throws and keeps the current user; otherwise the stored record without the password becomes current |
| MockBackend.MockApi.GetProfile | src/mockApi.js:80-87 | throws `User not found` iff nobody is signed in, else returns the current user |
| MockBackend.MockApi.GetBusinessTypes | src/mockApi.js:90-97 | exactly the ownerless entries and the current user's, in stored order, each as often as it is stored |
| MockBackend.MockApi.CreateBusinessType | src/mockApi.js:100-122 | without a user it throws; otherwise exactly one custom entry owned by the user is appended, and the next listing includes it |
| MockBackend.MockApi.GetTargetAudiences | src/mockApi.js:125-132 | exactly the ownerless audiences and the current user's, in stored order, each as often as it is stored |
| MockBackend.MockApi.CreateManualAudience | src/mockApi.js:135-157 | without a user it throws; otherwise one custom audience is appended, named `Custom Audience` by default, with both descriptions the given text |
| MockBackend.MockApi.GetCreditBalance | src/mockApi.js:201-208 | throws iff nobody is signed in, else the balance 0 |
| MockBackend.VisibleCustomIsOwn | src/mockApi.js:93-97 | a listed entry that has an owner belongs to the signed-in user |
| MockBackend.PackagesConsistent | src/mockApi.js:160-199 | each quoted per-credit price is its package price shared out, to the cent, and larger packages cost less per credit |
| LiveChat.PickIndex | src/components/LiveChat.jsx:194 | `Math.floor(rand * n)` is a valid template index |
| LiveChat.GenerateAIResponse | src/components/LiveChat.jsx:161-195 | a reply for the asked agent with one of its templates; it throws iff the audience has no description to lower-case |
| LiveChat.OtherAgentIsGeneric | src/components/LiveChat.jsx:193 | an unknown agent type always gets the generic reply |
| LiveChat.MissionText | src/components/LiveChat.jsx:94-101 | the system message contains the objective |
| LiveChat.MissionContains | src/components/LiveChat.jsx:94-101 | a prefix followed by the objective contains the objective |
| LiveChat.AgentMessage | src/components/LiveChat.jsx:125-135 | the i-th agent message comes from the i-th agent in the order, with its model and a generated reply |
| LiveChat.AgentMessages | src/components/LiveChat.jsx:105-145 | the first n agent messages, each the one for its position |
| LiveChat.AgentsUpTo | src/components/LiveChat.jsx:105-122 | exactly the set of the first n agents of the order, no more and no fewer |
| LiveChat.AgentStep | src/components/LiveChat.jsx:105-145 | one more loop step appends its agent's message and names its agent |
| LiveChat.CompletedTranscript | src/components/LiveChat.jsx:94-145 | a full run is the mission message followed by one reply from each of the five agents, in order |
| LiveChat.Regenerate | src/components/LiveChat.jsx:215-219 | same length; only that agent's AI messages get the new text and time; every other message is unchanged |
| LiveChat.RegenerateIdempotent | src/components/LiveChat.jsx:215-219 | regenerating twice with the same reply and time equals regenerating once |
| LiveChat.ChatSession.constructor | src/components/LiveChat.jsx:10-20 | an empty transcript, nobody typing, zero counters |
| LiveChat.ChatSession.StartSession | src/components/LiveChat.jsx:86-158 | a blank objective changes nothing; otherwise the mission and the five replies are appended and each counter grows by 5, or one error message is appended; nobody is left typing and loading ends |
| LiveChat.ChatSession.RunAgents | src/components/LiveChat.jsx:105-145 | the loop appends the five replies in order and adds 5 to both counters, or stops at the first failure |
| LiveChat.ChatSession.RunAgent | src/components/LiveChat.jsx:108-145 | one agent types, stops typing, and its reply is appended with both counters plus one |
| LiveChat.ChatSession.RegenerateResponse | src/components/LiveChat.jsx:202-220 | the agent stops typing; a reply rewrites only that agent's messages; the counters are untouched |
| Text.FormatDuration | src/components/LiveChat.jsx:222-226 | `m:ss`: decimal minutes without leading zeros, a colon, two-digit seconds below 60, and `m * 60 + ss` the input |
| ConversationDashboard.SelectedBusinessName | src/components/AIConversationDashboard.jsx:357-360 | the first matching business's name, or `No business selected` |
| ConversationDashboard.SimulatedMessage | src/components/AIConversationDashboard.jsx:309-316 | message n comes from agent `n % 4` and is about the selected business |
| ConversationDashboard.StatsAfter | src/components/AIConversationDashboard.jsx:318-324 | after n messages: n total, `5n` seconds, and the round that contains message n |
| ConversationDashboard.NextStatsAfter | src/components/AIConversationDashboard.jsx:318-324 | one tick's update turns the statistics of n messages into those of n + 1 |
| ConversationDashboard.ControlsFor | src/components/AIConversationDashboard.jsx:433-482 | Start only when stopped, Pause only when running, Resume only when paused, Stop when running or paused, Reset only with an id |
| ConversationDashboard.ControlsFollowTransitions | src/components/AIConversationDashboard.jsx:433-482 | a button is shown iff its action is a transition from the current state |
| ConversationDashboard.StateDotColor | src/components/AIConversationDashboard.jsx:425-429 | green exactly when running, yellow exactly when paused, blue exactly when completed, grey exactly when stopped |
| ConversationDashboard.Dashboard.constructor | src/components/AIConversationDashboard.jsx:147-160 | stopped, no id, no messages, zero statistics |
| ConversationDashboard.Dashboard.StartMessagePolling | src/components/AIConversationDashboard.jsx:304-341 | a new interval polls the given id and is stored; nothing else changes |
| ConversationDashboard.Dashboard.StopMessagePolling | src/components/AIConversationDashboard.jsx:343-347 | the stored interval, if any, is cleared |
| ConversationDashboard.Dashboard.HandleStart | src/components/AIConversationDashboard.jsx:218-245 | without a business only the error is set; success runs a fresh debate with statistics `{0, 1, 0}`; a failure sets the error; loading ends |
| ConversationDashboard.Dashboard.Begin | src/components/AIConversationDashboard.jsx:232-236 | running with the new id, no messages, and polling started |
| ConversationDashboard.Dashboard.HandlePause | src/components/AIConversationDashboard.jsx:247-257 | without an id nothing happens; success pauses; a failure sets the error |
| ConversationDashboard.Dashboard.HandleResume | src/components/AIConversationDashboard.jsx:259-270 | without an id nothing happens; success runs again and restarts polling |
| ConversationDashboard.Dashboard.HandleStop | src/components/AIConversationDashboard.jsx:272-284 | without an id nothing happens; success stops with no id and stops polling |
| ConversationDashboard.Dashboard.HandleReset | src/components/AIConversationDashboard.jsx:286-299 | without an id nothing happens; success also empties the messages and zeroes the statistics |
| ConversationDashboard.Dashboard.Tick | src/components/AIConversationDashboard.jsx:305-336 | at 16 messages nothing is added; below that the next agent's message is appended and the statistics advance |
| ConversationDashboard.Dashboard.Append | src/components/AIConversationDashboard.jsx:318-333 | the message is appended, the statistics match the new count, and the 16th schedules completion |
| ConversationDashboard.Dashboard.FireCompletion | src/components/AIConversationDashboard.jsx:328-332 | completed, polling stopped, and the search tab opened |
| ConversationDashboard.Dashboard.SelectBusiness | src/components/AIConversationDashboard.jsx:407-411 | reachable only while no conversation is running (the menu is disabled then); only the selection changes |
| ConversationDashboard.StatsMatchMessages | src/components/AIConversationDashboard.jsx:318-324 | in every reachable state the statistics are those of the message count; 16 messages give `{16, 5, 80}` |
| ConversationDashboard.DurationLabel | src/components/AIConversationDashboard.jsx:572 | the Duration card shows `m:ss`: minutes without leading zeros, seconds below 60, and the two read back as the elapsed seconds |
| ConversationDashboard.FullDebateLabel | src/components/AIConversationDashboard.jsx:572 | after a full sixteen-message debate the Duration card reads `1:20` |
| ConversationDashboard.AgentsRotate | src/components/AIConversationDashboard.jsx:311 | messages four apart come from the same agent |
| ConversationPanel.OrZero | src/components/ai_conversations.py:84-85 | a missing count reads as 0 |
| ConversationPanel.StateColor | src/components/ai_conversations.py:197-205 | running, paused, stopped and completed get their colours; anything else grey |
| ConversationPanel.AgentColor | src/components/ai_conversations.py:207-215 | each of the four agents gets its own colour (blue, red, green, purple) and only that agent gets it; grey exactly for anyone else |
| ConversationPanel.ControlsFor | src/components/ai_conversations.py:267-314 | Start only when stopped, Pause only when running, Resume only when paused, Stop when running or paused, Reset always |
| ConversationPanel.ControlsExclusive | src/components/ai_conversations.py:267-314 | Stop is shown iff Pause or Resume is, and never beside Start |
| ConversationPanel.Panel.constructor | src/components/ai_conversations.py:11-28 | stopped, no id, no messages, zero statistics |
| ConversationPanel.Panel.Start | src/components/ai_conversations.py:98-134 | without a business nothing is sent; an ok answer runs with empty messages and round 1; otherwise the answer's error or `Failed to start conversation`, state unchanged |
| ConversationPanel.Panel.Control | src/components/ai_conversations.py:136-182 | without an id nothing happens; only an ok answer moves the state |
| ConversationPanel.Panel.Pause | src/components/ai_conversations.py:136-150 | an ok answer pauses and polling stops |
| ConversationPanel.Panel.Resume | src/components/ai_conversations.py:152-166 | an ok answer runs and polling is active |
| ConversationPanel.Panel.Stop | src/components/ai_conversations.py:168-182 | an ok answer stops and polling ends; the id is kept |
| ConversationPanel.Panel.Reset | src/components/ai_conversations.py:184-190 | no id, stopped, no messages, zero statistics, no error; polling is off |
| ConversationPanel.Panel.FetchUpdates | src/components/ai_conversations.py:68-96 | a status with a state replaces the state and the statistics, counts defaulting to 0; present messages replace the list wholesale |
| ConversationPanel.Panel.SelectBusiness | src/components/ai_conversations.py:247 | only the selection changes |
| App.HeaderValue | src/App.jsx:104-108 | the value of the first header with that name, absent iff none has it |
| App.BuildConfig | src/App.jsx:101-113 | the URL is the base plus the endpoint; `Authorization: Bearer token` iff the token is truthy; given headers replace the defaults; object bodies are serialized |
| App.Settle | src/App.jsx:115-127 | a non-ok answer throws its `message` or `API request failed`; an ok answer returns its data; a failed fetch rethrows |
| App.StatusErrorNonEmpty | src/App.jsx:119-121 | a non-ok answer always throws, and never with an empty message: an empty or missing server message falls back to `API request failed` |
| App.ApiService.constructor | src/App.jsx:22-27 | the base URL and mock flag as given, the token read from storage |
| App.ApiService.SetToken | src/App.jsx:92-99 | the token as given; storage keeps a truthy token and loses a falsy one |
| App.ApiService.Request | src/App.jsx:101-128 | the effective `request`: the fetch arguments come from `BuildConfig`; the mock flag is not read |
| App.NewApiService | src/App.jsx:22-27 | the shared instance uses the configured base URL and the mock flag off |
| App.MockRoute | src/App.jsx:59-86 | each of the eight known endpoints reaches its own store call (register, login, profile, the audience list, manual audience creation, packages, balance; POST `/api/businesses` creating and other methods listing); an unknown one throws `Mock endpoint not implemented: ` plus the endpoint |
| App.MockRethrow | src/App.jsx:87-89 | an error is thrown again with its message, or `Mock API request failed` |
| App.UnknownEndpointMessage | src/App.jsx:83-89 | an unknown endpoint's message survives the rethrow |
| App.AuthProvider.constructor | src/App.jsx:222-224 | no user, loading |
| App.AuthProvider.Restore | src/App.jsx:226-240 | with a stored token a profile sets the user and a failure clears the token; loading ends |
| App.AuthProvider.SignIn | src/App.jsx:242-254 | an answer sets the token to its `access_token` and the user to its `user`; a failure changes nothing and is rethrown |
| App.AuthProvider.Logout | src/App.jsx:256-259 | token and user cleared |
| App.Regenerated | src/App.jsx:747-751 | new responses, credits consumed is old plus new, every other field kept |
| App.RegenerateTwice | src/App.jsx:747-751 | two regenerations keep the latest responses and charge both amounts |
| App.SessionsView.constructor | src/App.jsx:678-681 | nothing selected, not loading, no error |
| App.SessionsView.HandleRegenerate | src/App.jsx:741-759 | without a selected session nothing happens; an answer replaces the selection by the regenerated session, a failure sets its message; loading ends |
| App.Dashboard.constructor | src/App.jsx:976-981 | the businesses tab, nothing selected, no chat |
| App.Dashboard.BusinessClick | src/App.jsx:1006-1009 | the business is selected and the chat-setup tab opens |
| App.Dashboard.StartChat | src/App.jsx:1011-1014 | the audience is selected and the chat flag set |
| App.Dashboard.BackToBusinesses | src/App.jsx:1016-1021 | business, audience and chat cleared; the businesses tab opens |
| App.Dashboard.SetTab | src/App.jsx:1023-1025 | only the tab changes |
| App.Dashboard.LoadBusinesses | src/App.jsx:988-995 | a listing replaces the businesses, `[]` when the field is missing; a failure changes nothing |
| App.Dashboard.LoadAudiences | src/App.jsx:997-1004 | a listing replaces the audiences, `[]` when the field is missing; a failure changes nothing |
| App.NavigationRoundTrip | src/App.jsx:1006-1027 | choosing a business then an audience shows the chat; going back returns to the businesses tab with nothing selected |
| AudienceSelector.FilterAudiences | src/components/AudienceSelector.jsx:12-16 | kept iff the lower-cased term occurs in the name or a present description or manual description; a subsequence of the input holding each kept audience as often as the input does |
| AudienceSelector.EmptySearchKeepsAll | src/components/AudienceSelector.jsx:12-16 | an empty term keeps every audience, in order |
| AudienceSelector.NameSearchFinds | src/components/AudienceSelector.jsx:13 | searching for an audience's own name lists it |
| AudienceSelector.CardDescription | src/components/AudienceSelector.jsx:19 | the manual description when truthy, else the description |
| AudienceSelector.ListingFor | src/components/AudienceSelector.jsx:109-122 | the count is the number of cards; the empty text appears iff there are none, and depends on whether a term is set |
| AudienceSelector.EmptyStateMeansNoAudiences | src/components/AudienceSelector.jsx:113-122 | with no term, the empty state appears iff there are no audiences |
| TierSelector.BaseFeatures | src/components/RefinedTierSelector.jsx:95-101 | five base items |
| TierSelector.TierFeatures | src/components/RefinedTierSelector.jsx:94-116 | the five base items, followed by the six publishing items iff publishing is included |
| TierSelector.TierColor | src/components/RefinedTierSelector.jsx:82-92 | each of tier1..tier6 gets its own colour and only that id gets it; any other id exactly `#6c757d` |
| TierSelector.TierIcon | src/components/RefinedTierSelector.jsx:70-80 | each of the six tier names gets its own icon and only that name gets it; the chart icon exactly for any other name |
| TierSelector.PriceLabel | src/components/RefinedTierSelector.jsx:475-477 | `FREE` iff the price is 0, else `$` and the price |
| TierSelector.OriginalPriceLabel | src/components/RefinedTierSelector.jsx:478-480 | shown iff the tier is free for the owner and had a positive price |
| TierSelector.FindName | src/components/RefinedTierSelector.jsx:496 | the name of the first tier with that id, absent iff none has it |
| TierSelector.StartLabel | src/components/RefinedTierSelector.jsx:496 | `Starting Analysis...` while loading; otherwise `Start Analysis` when no tier has the selected id or the first such tier's name is empty, and `Start` with that name when it is non-empty |
| TierSelector.FailureAlert | src/components/RefinedTierSelector.jsx:58-64 | a 402 reports the price and tier name; other failures the answer's error or `Failed to start conversation` |
| TierSelector.Selector.constructor | src/components/RefinedTierSelector.jsx:4-8 | tier1 selected, no email, not loading |
| TierSelector.Selector.FetchTiers | src/components/RefinedTierSelector.jsx:14-23 | an answer replaces the tiers and the owner flag; a failure changes nothing |
| TierSelector.Selector.HandleStart | src/components/RefinedTierSelector.jsx:25-68 | no business, then no email, only alert; otherwise one request is sent, then exactly one of the callback or an alert; loading ends |
| TierSelector.EnabledButtonSends | src/components/RefinedTierSelector.jsx:493 | pressing the enabled button passes both guards |
| SearchImpact.MentionColor | src/components/AISearchImpact.jsx:79-83 | green above 10, yellow above 5, grey otherwise |
| SearchImpact.MentionColorMonotone | src/components/AISearchImpact.jsx:79-83 | more mentions never give a worse colour |
| SearchImpact.PositionColor | src/components/AISearchImpact.jsx:85-89 | green at 2 or better, yellow at 4 or better, red otherwise |
| SearchImpact.PlatformColor | src/components/AISearchImpact.jsx:112-134 | published or submitted green, pending yellow, anything else grey |
| SearchImpact.StatusOf | src/components/AISearchImpact.jsx:370-392 | the reported status, or `pending` when it is missing or empty |
| SearchImpact.MissingStatusIsPending | src/components/AISearchImpact.jsx:370-392 | an unreported platform shows pending, in yellow |
| SearchImpact.PlatformRows | src/components/AISearchImpact.jsx:368-392 | six rows, Google Search, Bing Search, LinkedIn, Twitter, Business Directories, Knowledge Graphs in that order, each showing its own platform's status (pending when missing); only the two search engines carry the public URL |
| SearchImpact.UpperChar | src/components/AISearchImpact.jsx:413 | ASCII upper-casing; other characters are kept |
| SearchImpact.Capitalize | src/components/AISearchImpact.jsx:413 | the first character upper-cased and the rest kept |
| SearchImpact.HttpError | src/components/AISearchImpact.jsx:44-46 | the answer's message, else `HTTP` with the status and its text |
| SearchImpact.PublishedConversation | src/components/AISearchImpact.jsx:207-239 | exactly four messages, in the fixed agent order, for the given conversation and business |
| SearchImpact.ImpactPanel.constructor | src/components/AISearchImpact.jsx:158-163 | idle, no results, no error; remembers whether `onPublishSuccess` was given |
| SearchImpact.ImpactPanel.HandlePublish | src/components/AISearchImpact.jsx:195-269 | without an id or business only the error is set; otherwise idle → publishing → published on success, the result handed to `onPublishSuccess` only when that prop is given, or back to idle with `Failed to publish: ` and the reason |
| SearchImpact.SumAppend | src/components/AISearchImpact.jsx:437-439 | the fold splits over concatenation |
| SearchImpact.SumBounds | src/components/AISearchImpact.jsx:437-439 | non-negative counts sum to at least each of them |
| SearchImpact.TotalMentions | src/components/AISearchImpact.jsx:437-439 | the sum of the conversation's mentions, else the platform total, else 0 |
| SearchImpact.BusinessName | src/components/AISearchImpact.jsx:271-277 | the business name, or its fallback |
| SearchImpact.IndustryCategory | src/components/AISearchImpact.jsx:271-277 | the industry, or its fallback |
| CreditPricing.PackageColor | src/components/CreditPricing.jsx:83-96 | starter blue, professional green, enterprise purple, bulk orange, each exactly for that id; any other id exactly the grey default |
| CreditPricing.PackageIcon | src/components/CreditPricing.jsx:68-81 | starter `Zap`, professional `TrendingUp`, enterprise `Star`, each exactly for that id; bulk and any other id the card icon |
| CreditPricing.PopularBadge | src/components/CreditPricing.jsx:98-114 | `Most Popular` iff professional, `Best Value` iff enterprise, none otherwise |
| CreditPricing.StoreBadges | src/components/CreditPricing.jsx:98-200 | among the store's packages exactly one is most popular, one best value, and only the starter lacks priority support |
| CreditPricing.OneButtonDisabled | src/components/CreditPricing.jsx:210 | with distinct ids, at most one button is disabled |
| CreditPricing.Pricing.constructor | src/components/CreditPricing.jsx:8-13 | no packages, zero balance, loading; remembers whether `onPurchaseComplete` was given |
| CreditPricing.Pricing.LoadData | src/components/CreditPricing.jsx:19-34 | a failure keeps the data and sets `Failed to load credit information`; otherwise missing fields read as `[]` and 0; loading ends |
| CreditPricing.Pricing.HandlePurchase | src/components/CreditPricing.jsx:36-66 | the package is marked and the error cleared; a PayPal link schedules completion; a failure unmarks it with the reason or `Purchase failed` |
| CreditPricing.Pricing.CompletePurchase | src/components/CreditPricing.jsx:45-59 | completion reloads and calls `onPurchaseComplete` only when that prop is given (the page at src/App_no_auth.jsx:807 passes none), failure sets `Failed to complete purchase`; a failed reload sets `Failed to load credit information` and keeps the packages and balance, a successful one keeps the error; the package is unmarked either way |
| CreditPricing.StuckWithoutLink | src/components/CreditPricing.jsx:41-60 | an answer without a PayPal link leaves the package marked with nothing scheduled |
| ResponseDisplay.ConfigFor | src/components/AIResponseDisplay.jsx:12-53 | a configuration exists iff the key is one of the five agents |
| ResponseDisplay.Cards | src/components/AIResponseDisplay.jsx:96-98 | exactly the entries with a configured key and a truthy value, in entry order |
| ResponseDisplay.Render | src/components/AIResponseDisplay.jsx:65-98 | the placeholder iff the responses are absent or empty, else the cards |
| ResponseDisplay.AllConfiguredShown | src/components/AIResponseDisplay.jsx:96-98 | configured keys with text all become cards |
| ResponseDisplay.NameOr | src/components/AIResponseDisplay.jsx:249-259 | the name when present and non-empty, else the fallback |
| ResponseDisplay.ResultsModal | src/components/AIResponseDisplay.jsx:157-196 | something renders iff the modal is open and has a session |
| ResponseDisplay.StatusColor | src/components/AIResponseDisplay.jsx:200-211 | active, completed and archived get their colours; anything else grey |
| ResponseDisplay.ResponseCount | src/components/AIResponseDisplay.jsx:243 | the number of keys, or 0 when absent |
| ResponseDisplay.CountCoversCards | src/components/AIResponseDisplay.jsx:243 | the count is never below the number of cards |
| ResponseDisplay.CopyFeedback.constructor | src/components/AIResponseDisplay.jsx:10 | no agent copied |
| ResponseDisplay.CopyFeedback.Copy | src/components/AIResponseDisplay.jsx:55-63 | a successful copy marks that agent; a failed one changes nothing |
| ResponseDisplay.CopyFeedback.ClearTimer | src/components/AIResponseDisplay.jsx:59 | the mark is cleared |
| Config.Path | src/config.js:9-29 | every endpoint path starts with `/` |
| Config.Url | src/config.js:2-29 | every endpoint URL is the base URL followed by its path |
| Config.ListIsCreate | src/config.js:14-21 | list and create share a URL for each resource; the two resources differ |
| Config.UpdateUrl | src/config.js:16-22 | the list URL, a slash and the id |
| Config.DeleteUrl | src/config.js:17-23 | the same URL as update |
| Config.UpdateUrlInjective | src/config.js:16-23 | distinct ids give distinct URLs |

## Left out

- HTTP, JSON and the remote backend: each answer is a given `Call` outcome, never fetched or decoded.
- Timers: `setTimeout`, `setInterval` and the random 2–5 second waits. Interval firings (`Dashboard.Tick`), completion timers (`FireCompletion`, `CompletePurchase`) and the copy timer (`ClearTimer`) are separate methods. Their scheduling and order are not modelled.
- `Math.random` and `Date.now()` / `new Date()`: draws, ids and timestamps are parameters.
- Browser APIs: `localStorage` is a single optional field. `navigator.clipboard` is a success flag. `window.open` and `alert` are recorded values.
- Canvas, WebGL and `navigator` probing in `BrowserFingerprint.generate`: only `hashCode` over given UTF-16 code units is modelled.
- Floating-point prices and `toFixed(2)`: prices are integer cents or whole dollars. An average search position is a `real`, used only in comparisons.
- `localeCompare`, `toLowerCase` and `toUpperCase`: modelled as code-unit lexicographic order and ASCII lower- and upper-casing.
- SearchImpact.UpperChar: upper-cases ASCII letters only; `toUpperCase` also maps other letters (and turns `ß` into two characters), so `Capitalize` agrees with the program only on ASCII first characters.
- React rendering and closures: markup, CSS, icons and Tailwind classes beyond the named string tables.
- The enhanced dashboard's interval reads a `messages` list captured when polling started. The model's tick reads the current list instead.
- The first `request` definition and its `handleMockRequest` branch in App.jsx: a later definition replaces it and never reads the mock flag. `MockRoute` models the router's dispatch only, not the store call it makes.
- `loadBusinesses` / `loadAudiences` of the two conversation dashboards, and the business menu fetch of the plain panel: plain `fetch` calls whose answers only replace a list.
- ConversationDashboard.Dashboard.HandleResume: the `[pollingInterval]` cleanup effect (src/components/AIConversationDashboard.jsx:351-355) is not modelled. Whenever the stored handle changes, React runs the previous render's `stopMessagePolling`, which clears the previous handle and resets the stored handle to null; after pause → resume or reset → start the program therefore clears intervals and drops a handle that the model's `liveIntervals` and `pollingInterval` keep.
- ConversationDashboard.Dashboard.FireCompletion: the completion timer (src/components/AIConversationDashboard.jsx:326-332) calls the `stopMessagePolling` of the render in which polling started, whose `pollingInterval` is still null, so in the program it clears nothing; the model clears the current handle.
- BusinessList.SortBusinesses: the order among businesses that compare equal (which `Array.prototype.sort` keeps stable) is not stated; only sortedness and permutation are.
- `ConversationPanel.Panel.FetchUpdates`: the interval that calls it is not modelled; `PollingActive` states when it would run.
- The impact and statistics loads of the search panel: fetches whose answers are read through `TotalMentions`, `BusinessName` and `IndustryCategory`.
- `handleSessionClick` and `handleCreateSession` in App.jsx: they only set a selection or pass through to a fetch.
- CreditPricing's `api` object: src/App_no_auth.jsx:807 mounts the page without one, so there every load throws, and neither app's API class defines `completePurchase`. `CreditPricing.Pricing.CompletePurchase` takes that call's outcome as a parameter.
- `Object.entries` over inherited or non-string keys, and `NaN` credit sums from missing numbers: counts and credits are integers.
- TierSelector.TierColor: the lookup tables written `colors[key] || fallback` (`TierColor`, `TierIcon`, `AgentColor` and the other object-literal colour and configuration tables; the `switch`-based `PackageColor` and `PackageIcon` are not affected) treat every key outside the table as unknown. In the program a key naming an inherited object member, such as `constructor` or `toString`, finds that member instead of the fallback, so their `<==>` clauses hold only for keys that are not `Object.prototype` member names.
