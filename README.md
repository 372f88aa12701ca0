# CyberSec AI dashboard: a Dafny model of its page logic

The application is a single-page React dashboard with five pages: a home page
with rolling statistics, an AI-generated news feed, an incident-report form
kept in browser storage, an assistant chat, and a directory of helplines and
guides. Almost all of it is presentation. This project models the logic that
sits inside the components and proves what it promises:

- **Incident reports** (`ReportPage`): the class `ReportForm` holds the
  newest-first list, the two form fields, the success flag and the storage
  map. A submit with an empty field changes nothing. An accepted submit
  prepends a report carrying the fields verbatim, status `Submitted` and the
  id `CYB-<timestamp>`, clears the form and raises the banner. The stored
  snapshot is always the serialization of the current list, so a reload gives
  the list back.
- **Assistant chat** (`ChatPage`): the class `Chat` holds an append-only log
  that starts with the greeting. Roles alternate and a user message waits for
  its answer exactly while a turn is loading. `sendMessage` is split at its
  `await` into `BeginSend` and `FinishSend`.
- **News feed** (`NewsPage`): the fetch state machine (`NewsFeed`), the
  code-fence stripping with JavaScript `trim` and `slice` semantics, the
  severity colours, and the source-link labels.
- **Resources** (`ResourcesPage`): two order-preserving filters that partition
  the catalogue into helplines and guides.
- **Home statistics** (`HomePage`): three counters with bounded, monotone
  increments per tick.
- **Navigation** (`App`, `Navbar`, `Constants`, `Types`): the five-page
  enumeration, the total dispatch, and the single highlighted link.

Each page class models one mount of its component. Navigation unmounts the
page being left, so returning to a page starts it afresh:
- the chat log goes back to the greeting;
- the news feed fetches again;
- the home statistics restart at 14736, 2891 and 942.

The report list alone survives, through browser storage.

`Text` holds the JavaScript string operations these pages rely on:
`String.prototype.trim` over the WhiteSpace and LineTerminator characters of
ECMA-262, `slice` with negative indices, and the decimal rendering of a
timestamp. A Dafny string is a sequence of Unicode scalar values, while
JavaScript measures and slices strings in UTF-16 code units. Every whitespace
character is a single code unit, so `trim` agrees exactly. `slice` and the
lengths it uses agree only for text without characters outside the Basic
Multilingual Plane; "## Left out" says what that means for the news page.

Three behaviours of the code are worth knowing, and the model keeps them:
- The report guard tests for the empty string only (`!incidentType ||
  !description`, pages/ReportPage.tsx:29), so a description made only of
  spaces is accepted (`ReportPage.CanSubmit`).
- Navigation has five pages and a `default` branch that no page value reaches
  (App.tsx:15-30).
- `incidentType` is typed as a string and holds whatever the select gives it
  (pages/ReportPage.tsx:60), so `Report.incidentType` is any string here.

## Model

| member | source | states |
|---|---|---|
| Types.PageHasFiveValues | types.ts:2 | `Page` has exactly five values, each listed once in `AllPages` |
| Types.PageNameInjective | components/Navbar.tsx:38 | the caption printed on each button identifies its page: equal captions iff equal pages |
| Text.Trim | pages/ChatPage.tsx:63 | `trim()` returns a slice of the input with no whitespace at either end, starting after the leading whitespace run and followed only by whitespace |
| Text.TrimEmptyIff | pages/ChatPage.tsx:107 | `input.trim()` is empty exactly when every character of the input is whitespace |
| Text.TrimIdempotent | pages/NewsPage.tsx:58-59 | trimming a trimmed string changes nothing |
| Text.JsSlice | pages/NewsPage.tsx:59 | `slice(start, end)` resolves negative indices from the end, clamps both into range, and is empty when end is not past start |
| Text.NatToDecimal | pages/ReportPage.tsx:32 | the timestamp in a template literal is a non-empty run of decimal digits with no leading zero |
| Text.DecimalRoundTrip | pages/ReportPage.tsx:32 | reading the rendered digits back gives the timestamp: the rendering loses nothing |
| Text.DecimalInjective | pages/ReportPage.tsx:32 | distinct timestamps render to distinct digit strings |
| Constants.NavLinksOrder | constants.ts:4-10 | the navigation links are Home, News, Report, Chat, Resources in that order |
| Constants.NavLinksDistinctAndComplete | constants.ts:4-10 | link names are pairwise distinct and every `Page` value has a link |
| Constants.ResourcesDataShape | constants.ts:12-55 | the catalogue has 7 entries, each a helpline or a guide |
| Constants.LinkIsHttps | constants.ts:16 | the link of each catalogue entry starts with `https://` |
| Constants.ResourceLinksAreHttps | constants.ts:16 | every resource link starts with `https://` |
| Constants.ResourceTitlesDistinct | constants.ts:14 | no two resources share a title |
| ResourcesPage.FilterCategory | pages/ResourcesPage.tsx:22-23 | the filter never grows the list and keeps only resources of the tested category |
| ResourcesPage.Helplines | pages/ResourcesPage.tsx:22 | the helplines section holds only helplines, in catalogue order |
| ResourcesPage.Guides | pages/ResourcesPage.tsx:23 | the guides section holds only guides, in catalogue order |
| ResourcesPage.FilterIsSubsequence | pages/ResourcesPage.tsx:22-23 | the filter keeps the catalogue's order: its result is a subsequence of the catalogue |
| ResourcesPage.FilterMultiplicity | pages/ResourcesPage.tsx:22-23 | each resource occurs in the filter as often as in the catalogue if its category matches, and not at all otherwise |
| ResourcesPage.FilterMembership | pages/ResourcesPage.tsx:22-23 | a resource is in the filter iff it is in the catalogue and has the tested category |
| ResourcesPage.HelplinesGuidesPartition | pages/ResourcesPage.tsx:22-23 | helplines and guides together are the catalogue as a multiset, their lengths add up to its length, and both keep its order |
| ResourcesPage.ShippedPartition | pages/ResourcesPage.tsx:22-23 | for the shipped data the helplines are entries 0, 1, 2, 5 and the guides entries 3, 4, 6: four and three |
| ResourcesPage.BadgeFor | pages/ResourcesPage.tsx:10 | the purple badge is chosen exactly when the category is Helpline |
| ResourcesPage.BadgesFollowSections | pages/ResourcesPage.tsx:10 | every card in the helplines section is purple and every card in the guides section teal |
| Navbar.ButtonsFor | components/Navbar.tsx:28-40 | one button per link in link order, captioned with its page name, highlighted iff its page is the active one |
| Navbar.Buttons | components/Navbar.tsx:28-40 | the bar shows five buttons for Home, News, Report, Chat, Resources in that order, each captioned with its page name and highlighted iff it is the active page |
| Navbar.ClickTarget | components/Navbar.tsx:23 | the logo selects Home and a button selects its own page |
| Navbar.HighlightCount | components/Navbar.tsx:33-36 | with distinct link names, exactly one button is highlighted when the active page has a link and none otherwise |
| Navbar.ExactlyOneHighlighted | components/Navbar.tsx:33-36 | for the shipped links, whatever the active page, exactly one button is highlighted |
| Navbar.ClickHighlightsClicked | components/Navbar.tsx:31 | clicking button i makes button i, and no other, the highlighted one |
| Navbar.LogoHighlightsHome | components/Navbar.tsx:23 | after a logo click only the first button, Home, is highlighted |
| App.RenderPage | App.tsx:15-30 | each page mounts its own component and each component belongs to exactly one page; the unreachable default is left out |
| App.Shell.constructor | App.tsx:13 | the shell starts on the home page |
| App.Shell.Render | App.tsx:34-36 | the navigation bar receives the current page and the main area renders it; exactly one button is highlighted, and its page is the one mounted in the main area |
| App.Shell.Navigate | App.tsx:13 | a navigation click changes only the active page, to the click's target |
| HomePage.Tick | pages/HomePage.tsx:30-34 | one tick raises threats by 0 to 4, breaches by 0 or 1 and advisories by exactly 1 |
| HomePage.Run | pages/HomePage.tsx:29-35 | the stats after a sequence of ticks; every tick adds exactly one advisory |
| HomePage.RunBounds | pages/HomePage.tsx:29-35 | after n ticks advisories grew by exactly n, threats by at most 4n, breaches by at most n, and none fell |
| HomePage.RunSplit | pages/HomePage.tsx:29-35 | running a sequence of ticks is running a prefix and then the rest |
| HomePage.Monotone | pages/HomePage.tsx:29-35 | no counter ever decreases: the state after a prefix of the ticks is componentwise below the state after all of them |
| HomePage.AdvisoriesAfter | pages/HomePage.tsx:26 | from the initial stats 14736, 2891, 942, n ticks leave 942 + n advisories |
| HomePage.StatsBoard.constructor | pages/HomePage.tsx:26 | the board starts at the initial stats with no ticks |
| HomePage.StatsBoard.OnTick | pages/HomePage.tsx:29-35 | each interval callback applies one tick and keeps the invariant that advisories equal 942 plus the ticks so far |
| ReportPage.LoadReports | pages/ReportPage.tsx:6-17 | the initial list is empty when the key is absent, holds an empty string, or holds text that does not parse; otherwise it is the parsed list |
| ReportPage.SaveReports | pages/ReportPage.tsx:23-25 | the persist effect writes the serialized list under the one key and leaves every other key alone |
| ReportPage.SaveThenLoad | pages/ReportPage.tsx:7-10 | loading what was saved gives back the saved list |
| ReportPage.ReloadGivesCurrent | pages/ReportPage.tsx:6-25 | in every valid form state, reloading the stored snapshot gives exactly the current list |
| ReportPage.LoadThenSaveIdempotent | pages/ReportPage.tsx:23-25 | loading a saved snapshot and saving the result writes back the same text |
| ReportPage.NewReport | pages/ReportPage.tsx:31-37 | the new report carries the form's fields verbatim, status Submitted and the id `CYB-` followed by the decimal rendering of the timestamp, whose digits read back as that timestamp |
| ReportPage.DistinctTimestampsDistinctIds | pages/ReportPage.tsx:31-37 | two reports submitted at different timestamps get different ids, whatever their fields |
| ReportPage.CanSubmit | pages/ReportPage.tsx:29 | the guard passes iff both fields are non-empty; a description of only whitespace passes |
| ReportPage.ReportForm.Banner | pages/ReportPage.tsx:91-93 | the banner shows exactly while the flag is set, and then displays the id of the newest report |
| ReportPage.ReportForm.SubmitEnabled | pages/ReportPage.tsx:86 | the submit button is enabled exactly when both fields are non-empty |
| ReportPage.ReportForm.constructor | pages/ReportPage.tsx:6-25 | mounting loads the list, starts with empty fields and no banner, and the first effect run stores the list |
| ReportPage.ReportForm.SetIncidentType | pages/ReportPage.tsx:60 | changing the select updates only the incident type |
| ReportPage.ReportForm.SetDescription | pages/ReportPage.tsx:79 | changing the textarea updates only the description |
| ReportPage.ReportForm.HandleSubmit | pages/ReportPage.tsx:27-44 | a submit the button would refuse changes nothing; an accepted one gives `[new] + old`, clears both fields, raises the banner with the new id (the report just submitted) and rewrites the snapshot |
| ReportPage.ReportForm.HideSuccess | pages/ReportPage.tsx:43 | the timer callback lowers the banner and changes nothing else |
| ReportPage.FillAndSubmit | pages/ReportPage.tsx:27-44 | choosing a type, typing a description and submitting prepends exactly the report those fields and that instant make, and rewrites the snapshot |
| ReportPage.SubmitTwo | pages/ReportPage.tsx:27-44 | a phishing then a ransomware report: two new entries, newest first, each Submitted with a case id from its timestamp, and a reload gives the same list |
| ChatPage.ReplyText | pages/ChatPage.tsx:73-78 | a turn ends with the reply text, or with the fixed apology when the call throws |
| ChatPage.CanSend | pages/ChatPage.tsx:63 | a send goes ahead iff the input has a non-whitespace character, no turn is loading and a session exists |
| ChatPage.Chat.constructor | pages/ChatPage.tsx:23-29 | the log starts as the single greeting from the model, with empty input, no loading, no error and no session |
| ChatPage.Chat.InitializeChat | pages/ChatPage.tsx:40-56 | without a key, or if session creation throws, the init error is set and the session stays null; otherwise the session is created with the fixed model and instruction |
| ChatPage.Chat.SetInput | pages/ChatPage.tsx:101 | typing updates only the input |
| ChatPage.Chat.SendDisabled | pages/ChatPage.tsx:107 | the send button is disabled exactly when loading or the input is all whitespace |
| ChatPage.Chat.Displayed | pages/ChatPage.tsx:91-92 | while a turn is loading the shown log is the log plus one model "Thinking..." bubble, otherwise exactly the log; either way it has odd length and roles alternate |
| ChatPage.Chat.BeginSend | pages/ChatPage.tsx:62-69 | a blank input, a turn in flight or a null session changes nothing; otherwise the untrimmed input is appended as a user message, the input cleared, loading set and the error cleared |
| ChatPage.Chat.FinishSend | pages/ChatPage.tsx:71-82 | the reply or apology is appended as a model message, the error is set only on failure, and loading ends on both paths |
| ChatPage.Chat.SendMessage | pages/ChatPage.tsx:62-83 | an accepted send appends exactly a user message then a model message and keeps every earlier message; a refused one changes nothing |
| ChatPage.SendWithoutKey | pages/ChatPage.tsx:42-44 | without an API key every later send is a no-op: the log stays the greeting and the init error stays shown |
| ChatPage.TypeAndSend | pages/ChatPage.tsx:62-83 | with a session and no turn in flight, typing a non-blank text and sending appends that text untrimmed and then the reply, and ends loading |
| ChatPage.OneTurn | pages/ChatPage.tsx:40-83 | with a key, any input that is not all whitespace is sent untrimmed, and the log becomes the greeting, the input and the reply or apology, with the error set only on failure |
| NewsPage.StripFence | pages/NewsPage.tsx:58-59 | the cleaned text is trimmed and never longer than the reply; text without the fence passes unchanged; fenced text of length at most 10 gives ""; longer fenced text loses 7 leading and 3 trailing characters and is trimmed |
| NewsPage.FenceSlice | pages/NewsPage.tsx:59 | `slice(7, -3)` drops seven leading and three trailing characters, and yields "" when ten or fewer characters remain |
| NewsPage.FencedPayloadRecovered | pages/NewsPage.tsx:59 | a payload wrapped in a json code fence comes out unwrapped and trimmed |
| NewsPage.BareReplyUnchanged | pages/NewsPage.tsx:59 | a trimmed reply that does not open with the fence reaches the parser unchanged |
| NewsPage.SeverityColor | pages/NewsPage.tsx:7-12 | the badge classes of each severity, as in the colour table |
| NewsPage.SeverityColorsDistinct | pages/NewsPage.tsx:7-12 | the colour table covers all four severities with four different colours |
| NewsPage.LinkText | pages/NewsPage.tsx:107 | a link's text is its title when the title is present and non-empty, otherwise its URI |
| NewsPage.SourceLinks | pages/NewsPage.tsx:98-107 | one link per entry with a web source, never more links than entries |
| NewsPage.SourceLinksAppend | pages/NewsPage.tsx:98-107 | the source list keeps order: the links of a concatenation are the links of each part in turn |
| NewsPage.SourceLinksSingle | pages/NewsPage.tsx:99 | an entry without a web source yields no link; one with a web source yields its link |
| NewsPage.SourceLinksEmptyIff | pages/NewsPage.tsx:99 | no link is listed exactly when no entry has a web source |
| NewsPage.FencedReplyYieldsArticles | pages/NewsPage.tsx:58-62 | with a key, a fenced reply whose payload parses yields exactly the parsed articles |
| NewsPage.FetchedArticles | pages/NewsPage.tsx:37-62 | a fetch yields no articles without a key, when the call fails or when the reply has no text; otherwise it yields what parsing the cleaned reply gives |
| NewsPage.FetchedSources | pages/NewsPage.tsx:53-56 | sources are set only from a successful call whose reply has grounding chunks, and then are those chunks |
| NewsPage.NewsFeed.constructor | pages/NewsPage.tsx:28-31 | the page starts loading with no articles, no sources and no error |
| NewsPage.NewsFeed.ArticlesVisible | pages/NewsPage.tsx:86 | articles show exactly when nothing is loading and there is no error |
| NewsPage.NewsFeed.VisibleLinks | pages/NewsPage.tsx:93 | the source links are listed only beside the articles, and then are the links of the current sources |
| NewsPage.NewsFeed.StartFetch | pages/NewsPage.tsx:34-36 | starting a fetch sets loading, clears the error and empties the sources |
| NewsPage.NewsFeed.FinishFetch | pages/NewsPage.tsx:37-68 | every failure sets the one fixed error and keeps the old articles; success replaces the articles; sources are replaced only when the reply has grounding chunks; loading ends on every path |
| NewsPage.NewsFeed.FetchNews | pages/NewsPage.tsx:33-68 | after a fetch, articles show iff the fetch yielded articles, and they are those articles; otherwise the fixed error shows |
| NewsPage.MountWithoutKey | pages/NewsPage.tsx:38-40 | without a key the page ends with the fixed error, no articles and no source links |

## Left out

- Browser storage and JSON are abstracted. `localStorage` is a
  `map<string, string>`. `JSON.stringify` and `JSON.parse` are the two
  functions of a `Codec`, and `parse` may fail. `Faithful` is a hypothesis, not
  a proof: it says that parsing the text of a report list gives the list back,
  and that this text is never empty. Text that parses as JSON but is not an
  array of reports is not modelled; the page would store whatever value it
  gets.
- Storage writes that fail (quota, private browsing) are not modelled. The
  console diagnostics are left out too.
- ReportPage.ReportForm.Valid: assumes a single writer of `localStorage`,
  meaning one tab, and no other code writing `cybersec_reports`. Browser
  storage is shared by every tab of the origin, and the page does not listen
  for `storage` events. So when two tabs each submit, the later write drops
  the other tab's report, and a reload then loses it. A `getItem`
  (pages/ReportPage.tsx:7) or `setItem` (:24) that throws, for example when
  storage is blocked, is not modelled either; the page catches neither.
- The Gemini client calls are network I/O and are not modelled. Each call's
  outcome is a parameter: `Reply` for the chat, and `ApiResult` with an
  optional text and optional grounding chunks for the news.
- ReportPage.NewReport: `Date.now()` is a `nat` parameter. The ISO date is a
  string parameter, so the model does not say it comes from the same instant.
  `toLocaleString` is display only.
- Text.NatToDecimal: renders every natural number in plain digits. JavaScript
  switches to exponent notation at 10^21, which a millisecond clock does not
  reach.
- Id uniqueness is not proved: ids come from the clock, and two submits in the
  same millisecond collide. Only distinct timestamps giving distinct ids is
  proved.
- `setTimeout` and `setInterval` are left out. The timer callbacks are
  explicit steps: `HideSuccess` and `OnTick`. Because `HideSuccess` may run at
  any time, the case where an earlier timer lowers a later banner is covered.
- `Math.random` is left out. Each tick takes its floored draws as a `Draw`
  with bounded integers.
- HomePage.Tick: counters are unbounded integers. JavaScript numbers are
  doubles, which stay exact far beyond any reachable count.
- React itself is left out: JSX, CSS classes, scroll-to-bottom, effect
  scheduling and state batching. The model is sequential. The `await` in
  `sendMessage` and `fetchNews` is where the methods are split
  (`BeginSend`/`FinishSend`, `StartFetch`/`FinishFetch`).
- NewsPage.NewsFeed.FinishFetch: requires the state that `StartFetch` leaves,
  because it is only ever the continuation of the same call.
- ChatPage.Chat.InitializeChat: requires that no turn is loading, since it
  runs once on mount before any send.
- The news prompt text and the models' replies are not modelled. Neither is
  the shape of the parsed articles: the page trusts `JSON.parse`, and `parse`
  here returns articles directly.
- Text.JsSlice: indexes Unicode scalar values, while JavaScript's `slice`
  counts UTF-16 code units. A character outside the Basic Multilingual Plane
  is one position here and two in JavaScript.
- NewsPage.StripFence: the counts 7, 3 and 10 are in characters, not UTF-16
  code units. For a fenced reply holding such a character, the source's
  `slice(7, -3)` cuts at a different place. For example, for "```json[]"
  followed by a newline and U+1F642, the page gets "[]" and the model gets "[".
- NewsPage.FenceSlice: states `slice(7, -3)` over characters, with the same
  difference for text outside the Basic Multilingual Plane.
- components/Footer.tsx and components/Loader.tsx are presentation only and
  are not part of this model.
