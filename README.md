# RSS reader core, modelled in Dafny

This project models the logic of a browser RSS reader. The reader takes a feed
URL from a form and validates it. It fetches the feed XML through a CORS proxy
and parses it into a title, a description and posts. It keeps everything in
one application state record and polls the tracked feeds on a fixed interval.

Modules, one per source file, plus two shared ones:

- `Common`: optional values and results. JavaScript's `||` on an optional
  string, where absent and `''` both fall through. The decimal text of a
  number inside a template string, with a proof that it is injective.
- `Xml`: the parsed document as the parsers see it. That is a `parsererror`
  flag, the channel and first `title`/`description` texts, and the items with
  their optional `title`, `link` and `description`. It also holds the
  fallback rules and the item-to-post mapping that both parsers use.
- `RssParser` (`src/rssParser.js`) and `Rss` (`src/rss.js`): the two feed
  parsers. `Rss` also covers the fetch guards of `loadRssFeed`.
- `Api` (`src/api.js`): how `fetchRssData` maps a response or an error to a
  payload or one of `networkError`, `rssError`, `unknown`.
- `Validation` (`src/validation.js`): the URL schema and the shape of the
  validation result.
- `State` (`src/state.js`): the state store as a class. Its setters change
  one part of the record in place, and their postconditions state the whole
  new record.
- `Updater` (`src/updater.js`): the `FeedUpdater` polling state machine as a
  class. Its fields are `timeoutId`, `isUpdating` and `feeds`, plus the timer
  table: the set `pending` of live timer handles and the next handle to hand
  out. `performUpdate` is split at its `await`. `PerformUpdate` is the part
  up to the `await`; it returns the urls the update callback was called with.
  `CompleteUpdate` is the part after it, including the `finally`. A timer
  firing is the step `TimerFires`.

Things outside the model are parameters:

- The network: `get` for the HTTP client in `Api`, `fetch` in `Rss`.
- The XML parser (`parse`) and `encodeURIComponent` (`encode`).
- `createProxyUrl` (`proxy`) and yup's URL test (`isUrl`).
- The clock. `Date.now()` is read once per item inside the `map`, so it is
  `clock(i)` there, and `now` in `addFeed`.
- The update callback. Each call is a url in the list `PerformUpdate`
  returns, and its outcome is a `Settled` value handed to `CompleteUpdate`.

Properties proved:

- Post ids are pairwise distinct within one call in both parsers, whatever
  the clock reads. In `rss.js` this holds even when the feed url contains
  dashes.
- `loadRssFeed` and `parseRssContent` agree on every document that arrives,
  except for the post ids.
- In `fetchRssData`, line 15 throws `networkError` when the proxy reports a
  failed origin fetch. The `.catch` right after it finds neither `code` nor
  `response` in that error. So the failure is reported as `unknown`, and
  any request axios resolved ends as a value or `unknown`.
- The validation result is valid exactly when its error list is empty, and
  exactly when the url is non-empty, passes `isUrl` and is not in
  `existingUrls`. yup's URL test skips the empty string, so `''` gets only
  the required message (and the duplicate one if `''` is listed).
- `start()` leaves exactly one reachable timer and adds no other, so any
  number of `start()` calls on a new updater leaves one live timer.
- `scheduleUpdate` overwrites `timeoutId` without clearing the old timer.
  So `forceUpdate()` with no feeds leaves a timer `stop()` cannot reach.
  `forceUpdate()` beside a set timer leaves two live timers once its tick
  completes. For every busy updater, a `stop()` during the tick is undone
  when the tick completes.

The code and the tests disagree in one place. `test/validation.test.js:14`
expects the empty-URL message `'URL не может быть пустым'`, but the schema at
`src/validation.js:6` says `'Не должно быть пустым'`. The model follows the
code.

## Model

| member | source | states |
|---|---|---|
| Common.OrElse | src/rssParser.js:21-23 | `s \|\| fallback` on an optional text: its value when present and non-empty, the fallback otherwise (an empty string counts as missing) |
| Common.NatToString | src/rssParser.js:20 | the `${n}` text of a number is non-empty, all digits, and one character long exactly for numbers below 10 |
| Common.NatToStringInjective | src/rssParser.js:20 | different numbers render as different texts |
| Xml.FeedTitle | src/rssParser.js:10-12 | the feed title is `channel > title`, else the first `title`, else `'Без названия'`; never empty |
| Xml.FeedDescription | src/rssParser.js:13-15 | the description is `channel > description`, else the first `description`, else `'Без описания'`; never empty |
| Xml.ItemToPost | src/rssParser.js:21-23 | a post takes the item's title, link and description, with `'Без названия'`, `'#'` and `''` for missing or empty ones; title and link are never empty |
| RssParser.PostId | src/rssParser.js:20 | an id `${now}-${index}` is the timestamp's digits, one dash, the index's digits, with no other dash |
| RssParser.PostIdInjective | src/rssParser.js:20 | an id `${now}-${index}` determines both the timestamp and the index |
| RssParser.PostsOf | src/rssParser.js:17-24 | exactly one post per item, in document order, the i-th built from the i-th item under id `${clock(i)}-${i}` |
| RssParser.PostIdsDistinct | src/rssParser.js:19-20 | the post ids of one call are pairwise distinct, whatever the clock reads |
| RssParser.ParseRssContent | src/rssParser.js:1-31 | fails with `'rssError'` exactly when the document has a `parsererror`; otherwise gives the fallback title and description and the posts, with distinct ids |
| Rss.ProxiedUrl | src/rss.js:5-6 | the fetched address is the proxy prefix followed by the encoded feed url |
| Rss.HttpErrorMessage | src/rss.js:13 | the message is `HTTP error! status: ` followed by the status in decimal, only digits after the fixed text |
| Rss.PostId | src/rss.js:43 | an id `${url}-${index}-${now}` is the url, a dash, the index's digits, a dash, the timestamp's digits, with no other dash after the url |
| Rss.PostIdInjective | src/rss.js:43 | for one feed url, an id `${url}-${index}-${now}` determines the index and the timestamp, even if the url contains dashes |
| Rss.PostsOf | src/rss.js:39-47 | exactly one post per item, in document order, under id `${url}-${i}-${clock(i)}`, with the same defaults as the other parser |
| Rss.PostIdsDistinct | src/rss.js:42-47 | the post ids of one call are pairwise distinct |
| Rss.LoadRssFeed | src/rss.js:1-67 | the guards in order: a rejected fetch or `json()` passes its error on unchanged; a non-ok response fails with `HTTP error! status: <status>` before any parsing; missing or empty `contents` fails with `'No content received from RSS feed'`; a `parsererror` fails with `'rssError'`; otherwise the result echoes `url` with the fallback title, description and posts, with distinct ids |
| Rss.LoadAgreesWithParseRssContent | src/rss.js:23-47 | on a document that arrived, `loadRssFeed` fails exactly when `parseRssContent` does, with the same error; otherwise both give the same title, description and posts except for the ids |
| Api.Message | src/api.js:19-27 | every failure is thrown with one of the three messages `networkError`, `rssError`, `unknown` |
| Api.TargetUrl | src/api.js:11 | the request goes to the url itself in test mode and to the proxy url otherwise |
| Api.Classify | src/api.js:20-26 | `networkError` exactly for code `ECONNABORTED` or a response status of at least 500; `rssError` exactly for a status from 400 on that is not one of those; `unknown` for everything else |
| Api.ProxyFailed | src/api.js:14 | a body without `status` is never a proxy failure, an `http_code` of 200 is not one, and a `status` whose `http_code` is missing or any other number is one |
| Api.OnResponse | src/api.js:13-18 | the `.then` step throws, with an error that has no code and no response, exactly when the proxy's `status.http_code` is not 200; otherwise it returns the whole body in test mode and its `contents` otherwise |
| Api.FetchRssData | src/api.js:10-28 | a rejected request is classified by its code and status; a resolved one whose proxy reports a failure is classified as an error with no code and no response; any other resolved one resolves to its payload |
| Api.ProxyFailureReportedAsUnknown | src/api.js:14-26 | the `networkError` thrown at line 15 is caught by the `.catch` after it and ends as `unknown` |
| Api.ResolvedRequestIsNeverNetworkOrRssError | src/api.js:13-27 | a request axios resolved never ends as `networkError` or `rssError` |
| Validation.FailedRules | src/validation.js:3-9 | the required message appears exactly for the empty url, the URL message exactly for a non-empty url that fails `isUrl` (yup's URL test skips `''`), the duplicate message exactly for a url in `existingUrls`; no other message, at most three |
| Validation.ValidateRssUrl | src/validation.js:11-24 | always resolves; `isValid` holds exactly when `errors` is empty, and exactly when the url is non-empty, passes `isUrl` and is not already listed; the errors are those of every failing rule |
| Validation.DuplicateRefused | src/validation.js:8 | a url already in `existingUrls` is invalid with `'RSS уже существует'` among the errors |
| Validation.EmptyRefused | src/validation.js:6-8 | the empty url is invalid; its only error is `'Не должно быть пустым'`, followed by the duplicate message only when `''` is itself listed |
| Validation.DefaultListHasNoDuplicates | src/validation.js:11 | with the default `existingUrls = []` the duplicate error never occurs, and a non-empty url passing `isUrl` is accepted |
| Validation.ErrorCountIsRulesBroken | src/validation.js:15-20 | the number of errors is the number of rules broken (`abortEarly: false`) |
| Validation.ValidateRssContent | src/validation.js:26-32 | resolves to valid with no error |
| State.InitialState | src/state.js:3-18 | form state `'filling'`, empty url and errors, no feeds, posts or read posts, no UI error |
| State.FeedId | src/state.js:57 | a feed id is `feed-` followed by exactly the decimal text of the timestamp |
| State.FeedIdInjective | src/state.js:57 | feeds added at different times get different ids |
| State.AppState.constructor | src/state.js:20-27 | a new store holds the initial state |
| State.AppState.SetFormState | src/state.js:37-39 | the form state becomes the value given; nothing else changes |
| State.AppState.SetFormUrl | src/state.js:41-43 | the form url becomes the value given; nothing else changes |
| State.AppState.SetFormErrors | src/state.js:45-47 | the form errors become the value given; nothing else changes |
| State.AppState.ClearForm | src/state.js:49-53 | url `''`, errors `{}`, form state `'filling'`; feeds, posts, read posts and UI untouched |
| State.AppState.AddFeed | src/state.js:55-63 | appends exactly one feed with the given url, title and description and id `feed-${now}`; earlier feeds and everything else unchanged |
| State.AppState.AddPosts | src/state.js:65-67 | the posts become the old posts followed by the new ones, in order, with the summed length; nothing else changes |
| State.AppState.SetError | src/state.js:69-71 | the UI error becomes the value given; nothing else changes |
| State.AppState.ClearError | src/state.js:73-75 | the UI error becomes null; nothing else changes |
| Updater.Urls | src/updater.js:45-47 | one url per tracked feed, in the order of `feeds` |
| Updater.FeedUpdater.constructor | src/updater.js:2-8 | `timeoutId` null, not updating, no feeds, no timer set; the interval is the one given, 5000 by default |
| Updater.FeedUpdater.SetFeeds | src/updater.js:10-12 | replaces the feeds; the timer and the busy flag are unchanged |
| Updater.FeedUpdater.AddFeed | src/updater.js:14-16 | appends exactly one feed; nothing else changes |
| Updater.FeedUpdater.Start | src/updater.js:18-21 | afterwards exactly one reachable timer, freshly set, and the unreachable timers are the same as before |
| Updater.FeedUpdater.Stop | src/updater.js:23-28 | clears the recorded timer if there is one and sets `timeoutId` to null; the busy flag, the feeds and unreachable timers are unchanged; without a timer nothing changes |
| Updater.FeedUpdater.ScheduleUpdate | src/updater.js:30-34 | sets a fresh timer and records it, without clearing the previous one: every timer live before becomes unreachable |
| Updater.FeedUpdater.PerformUpdate | src/updater.js:36-47 | while busy or with no feeds, calls nothing, keeps the busy flag and sets a new timer; otherwise raises the busy flag and calls the callback once per feed with its url, in order |
| Updater.FeedUpdater.CompleteUpdate | src/updater.js:49-63 | whatever the callbacks settled to, the busy flag drops and a fresh timer is set; nothing is thrown |
| Updater.FeedUpdater.TimerFires | src/updater.js:31-33 | a firing timer leaves the timer table and `performUpdate` runs; the recorded handle is not cleared |
| Updater.FeedUpdater.ForceUpdate | src/updater.js:66-70 | while busy, nothing changes and nothing is called; otherwise behaves as `performUpdate` |
| Updater.StartedRepeatedly | src/updater.js:18-21 | any number of `start()` calls on a new updater leave exactly one live timer, the one `stop()` can clear |
| Updater.ForceUpdateLeaksTimer | src/updater.js:66-70 | `forceUpdate()` with no feeds, then `stop()`, leaves the timer `start()` set still live |
| Updater.ForceUpdateDoublesTimers | src/updater.js:62 | `forceUpdate()` beside a set timer leaves two live timers once its tick completes, one of them unreachable |
| Updater.StopDuringTickRestarts | src/updater.js:60-63 | for any busy updater, `stop()` during the tick and then its completion leave a recorded timer that is live, beside the unreachable timers there were before |
| Updater.StopDuringTickIsUndone | src/updater.js:60-63 | with two feeds, one fulfilled and one rejected callback and a `stop()` during the tick, the tick calls both urls in order and ends not busy with exactly one live timer |

## Left out

- `src/view.js`, `src/main.js`, `src/i18n.js` and `vite.config.js` are not part of this model. They hold DOM rendering, mock data, i18next setup and build configuration.
- Real time: the interval is stored but no clock runs. The 10-second request timeout appears only as the `ECONNABORTED` code it produces, and the one-second delay of `validateRssContent` is not modelled.
- `console` logging, including the per-result logging in `performUpdate` (src/updater.js:51-58).
- Updater.CompleteUpdate: the settled results are only logged in the source, so the model takes them and does not inspect them.
- Updater.FeedUpdater.SetFeeds: the source keeps the caller's array (aliasing), so a later `addFeed` also changes that array. The model stores the feeds as a value.
- The `onChange` wrapper in `createState` (its callback does nothing). Also not modelled: the default `initialState` object is one shared object that every store made without an argument mutates.
- `readPosts` is in the record and has a getter, but no operation of `src/state.js` changes it. The getters are plain reads and have no contract of their own; the setters' postconditions state what they return.
- `axios`, `fetch`, `DOMParser`, `encodeURIComponent`, `createProxyUrl` and yup's URL test are parameters, so their behaviour is not fixed here.
- Api.FetchRssData: a `response.data` that is not an object is not modelled; the model's bodies are always records. A null or undefined body makes `.then` throw a TypeError, which the `.catch` at src/api.js:19-27 turns into `unknown`. A primitive body does not throw: in test mode axios gives the XML text itself, `.status` on it is undefined, and the fetch resolves to that string, which `WholeData` cannot hold.
- Rss.LoadRssFeed: a JSON `data` that is null makes `data.contents` throw a TypeError, which the `catch` at src/rss.js:62-66 rethrows unchanged; the model's JSON bodies are always records.
- Updater.FeedUpdater.PerformUpdate: the update callback is taken to be asynchronous. If it throws synchronously, `this.feeds.map` (src/updater.js:45-47) stops at that feed, the `finally` still runs, and `performUpdate` rejects; from the timer at line 32 that is an unhandled rejection. `called == Urls(old(feeds))` here and "nothing is thrown" in CompleteUpdate hold only for callbacks that return a promise.
- State.AppState.AddFeed: the source pushes onto the live `feeds` array, which a caller of `getFeeds` still holds (src/state.js:32, 62), while `addPosts` builds a new array (line 66). The model's sequences are values, so this difference in aliasing is not captured.
- Validation.FailedRules: lists every failing rule in the order the schema declares them, as `abortEarly: false` documents. It does not model how yup orders or groups its own rule checks internally.
- Comparing fetched posts with posts already known is not in any of the modelled files. The update callback is injected, so no such diff is modelled.
