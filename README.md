# Tradequatic Light: a verified model of the strategy server and its client stores

Tradequatic Light lets a trader describe a strategy in plain French or English. It gets a PineScript
strategy back from an AI generator, then stores, lists, edits, duplicates and deletes strategies on
a small Express server. The server also registers and signs in users with JSON web tokens. Two
zustand stores on the client mirror the server's answers.

This project models that core in Dafny:

- **`AiRoutes`** (server/routes/ai.js) covers `POST /generate-strategy` and
  `POST /improve-strategy`.
  - The keyword matcher `generateMockStrategy` decides the template, the indicator list and the
    confidence. The confidence starts at 75, gets keyword and context bonuses and is capped at 95.
  - On the language-model path, the reply is split on the first code fence.
- **`StrategyRoutes`** (server/routes/strategies.js) models the in-memory `strategies` map as a
  class over an insertion-ordered map.
  - The list handler applies its three filters (search, tags, author), then JavaScript's
    `slice` pagination and `Math.ceil` page count.
  - The other handlers are get, create, update, delete and duplicate.
- **`AuthRoutes`** (server/routes/auth.js) models the `users` map, register, login, the profile
  route and the `authenticateToken` middleware. bcrypt and jsonwebtoken become a `Crypto`
  parameter: hash, compare, sign and verify functions.
- **`StrategyStore`** and **`AuthStore`** (src/stores) are classes whose methods update their
  fields as the zustand actions do. The server's answer, or the error the call threw, is an input
  (`ClientApi.ApiResult`).
- **`AIGenerator`** (src/pages/AIGenerator.tsx) covers the indicator toggle, the blank-prompt
  guard, the request the page sends and the button condition.
- **`Header`** (src/components/layout/Header.tsx) models `isActivePath`.

The shared modules are:

- `Wrappers`: `Option`.
- `Http`: a handler's status and body. `Missing` is JavaScript falsiness of an optional string.
- `Text`: `includes`, `startsWith`, `split`, `join`, `toLowerCase` and `trim`.
- `Seqs`: `filter` and the sub-list order.
- `JsMap`: the ordered JavaScript `Map`.
- `Domain`: the records of src/types.

## Model

| member | source | states |
|---|---|---|
| AiRoutes.MatchKeywords | server/routes/ai.js:158-178 | the four keyword tests run in order give the type, the indicator list and the confidence that the keyword definitions give |
| AiRoutes.GenerateMockStrategy | server/routes/ai.js:154-356 | the imperative matcher, with the context bonuses, computes exactly the specified mock answer |
| AiRoutes.MockResponse | server/routes/ai.js:154-356 | the matcher's answer carries a confidence from the base 75 to the cap 95, the script and parameters of the template the keywords select, and the fixed suggestions |
| AiRoutes.MockConfidence | server/routes/ai.js:160-182 | the raw score, capped, is never below the base 75 and never above the cap 95 |
| AiRoutes.KeywordIndicatorsShape | server/routes/ai.js:159-173 | the indicators start with SMA, keep the order SMA, RSI, MACD, Bollinger Bands, and name RSI/MACD/Bollinger Bands exactly when the prompt mentions them |
| AiRoutes.KeywordIndicatorsDistinct | server/routes/ai.js:159-173 | no indicator is named twice |
| AiRoutes.TemplateSelection | server/routes/ai.js:170-178 | a scalping keyword wins over Bollinger, which wins over the trend default |
| AiRoutes.BollingerSelectsMeanReversion | server/routes/ai.js:170-174 | a Bollinger prompt without scalping gets the mean-reversion script and at least 10 bonus points |
| AiRoutes.BollingerKeywords | server/routes/ai.js:170-178 | a Bollinger prompt without scalping selects mean reversion and scores at least 85 before context bonuses |
| AiRoutes.KeywordScoreKept | server/routes/ai.js:180-182 | the context bonuses never lower the keyword score, so a floor up to the cap survives into the answer |
| AiRoutes.MatchingIgnoresCase | server/routes/ai.js:155 | lower-casing the prompt first changes neither the confidence, nor the script, nor the indicators |
| AiRoutes.NaiveSplit | server/routes/ai.js:49-50 | the summary never holds the fence; a reply without a fence is all summary and no script |
| AiRoutes.ModelResponse | server/routes/ai.js:52-62 | the model answer is named after the first five characters of the id, has the trimmed summary as description and explanation, the text after the fence as script, no parameters, confidence 85 and the fixed suggestions |
| AiRoutes.NaiveSplitRoundTrip | server/routes/ai.js:49-50 | the summary holds no fence; summary, fence and script together give back a reply that holds a fence; a reply without a fence is all summary |
| AiRoutes.ModelResponseShape | server/routes/ai.js:52-62 | the model answer has confidence 85 and no parameters; its description and explanation are the trimmed summary, which has no fence |
| AiRoutes.GenerateStrategy | server/routes/ai.js:15-78 | a missing or empty prompt gets 400; otherwise the matcher's answer, the model's answer or a 500 when the model call fails |
| AiRoutes.ImproveStrategy | server/routes/ai.js:81-151 | 400 exactly when the strategy id or the feedback is missing; otherwise the fixed improved strategy with confidence 87 |
| StrategyRoutes.ApplyFilters | server/routes/strategies.js:76-95 | the filtered list keeps the stored order, and holds exactly the stored strategies that pass search, tags and author |
| StrategyRoutes.FilterPipeline | server/routes/strategies.js:76-95 | the three stages one after another keep the stored order and select exactly what all three filters accept |
| StrategyRoutes.SearchStage | server/routes/strategies.js:79-85 | the search filter keeps exactly the strategies whose name or description contains the lower-cased query |
| StrategyRoutes.TagsStage | server/routes/strategies.js:86-92 | the tags filter keeps exactly the strategies sharing one of the comma-separated tags |
| StrategyRoutes.AuthorStage | server/routes/strategies.js:93-95 | the author filter keeps exactly the strategies of that author id |
| StrategyRoutes.ClientTagsRoundTrip | server/routes/strategies.js:86-92 | tags the client joins with commas are split back into the same list, and a strategy shares a tag (`SharesTag`) iff it carries one of them; the joined text is empty only for the list [""], and for every other list the tag filter passes a strategy iff it carries one of the tags |
| StrategyRoutes.ClientNoTags | server/routes/strategies.js:86 | an empty tag list, joined to "", applies no tag filter |
| StrategyRoutes.JsSlice | server/routes/strategies.js:100 | `slice` clamps and counts negative bounds from the end, and returns the contiguous run between the resolved bounds |
| StrategyRoutes.CeilDiv | server/routes/strategies.js:110 | the ceiling of the quotient: the smallest whole number of pages that holds all entries |
| StrategyRoutes.Paginate | server/routes/strategies.js:97-100 | every entry of a page is a filtered entry; a page holds at most `limit` entries for a non-negative limit, and none for limit 0 |
| StrategyRoutes.TotalPages | server/routes/strategies.js:110 | no page count (JSON null) for limit 0; otherwise the ceiling of total over limit, which for a positive limit is at least one exactly when there is an entry, and for a negative limit is never positive |
| StrategyRoutes.ListPage | server/routes/strategies.js:72-113 | the answer's entries are exactly the requested page of the filtered list; it echoes page and limit, counts the filtered entries (never more than the stored ones), reports their page count, lists only stored entries that pass the filters, and from page 1 on with a positive limit lists entries exactly when the page number is at most the page count |
| StrategyRoutes.PageWindow | server/routes/strategies.js:97-100 | page p from 1 holds at most `limit` entries, the ones from index (p-1)*limit on |
| StrategyRoutes.PageNonEmptyIff | server/routes/strategies.js:97-110 | a page from 1 on has entries exactly when its number is at most the reported page count |
| StrategyRoutes.PageZeroEmpty | server/routes/strategies.js:98-100 | page 0 is empty |
| StrategyRoutes.NegativePageCountsFromEnd | server/routes/strategies.js:98-100 | page -1 is accepted and returns a window counted back from the end |
| StrategyRoutes.NegativeLimitDropsTail | server/routes/strategies.js:97-100 | limit -k is accepted, and page 1 then holds every entry but the last k |
| StrategyRoutes.PagesUpToPrefix | server/routes/strategies.js:97-100 | pages 1 to k together are the first k*limit entries |
| StrategyRoutes.PagesCoverAll | server/routes/strategies.js:97-110 | pages 1 to the page count together are the whole filtered list, in order |
| StrategyRoutes.Created | server/routes/strategies.js:154-179 | a created strategy carries the body's fields, the demo author, empty defaults, no downloads or rating, and the two clock reads as creation and update time |
| StrategyRoutes.Updated | server/routes/strategies.js:208-213 | every field the body carries overrides the stored one and every other field is kept, except that the id is the route's and updatedAt the current time |
| StrategyRoutes.UpdateIgnoresIdAndTimestamp | server/routes/strategies.js:208-213 | an id or updatedAt in the body is overridden by the route's id and the current time |
| StrategyRoutes.UpdateWithoutChanges | server/routes/strategies.js:208-213 | an empty body only refreshes updatedAt |
| StrategyRoutes.UpdateIdempotent | server/routes/strategies.js:208-213 | applying the same body twice is applying it once |
| StrategyRoutes.Duplicated | server/routes/strategies.js:271-280 | a copy gets a new id, the " (Copie)" suffix, the original's content, no downloads or rating, and the two clock reads as creation and update time |
| StrategyRoutes.DuplicateTwice | server/routes/strategies.js:271-280 | a copy of a copy has the suffix twice and the original's content |
| StrategyRoutes.ListedAreStored | server/routes/strategies.js:72-113 | every listed strategy is stored under its own id and passes the filters; the total never exceeds the stored count |
| StrategyRoutes.StrategyRepository.constructor | server/routes/strategies.js:7-69 | the map starts with the one RSI divergence example |
| StrategyRoutes.StrategyRepository.List | server/routes/strategies.js:72-113 | the list route always answers 200 with stored, filtered strategies |
| StrategyRoutes.StrategyRepository.Get | server/routes/strategies.js:124-134 | 200 with the stored strategy exactly when the id is stored, else 404 |
| StrategyRoutes.StrategyRepository.Create | server/routes/strategies.js:150-185 | 400 and no change without name, description and script; otherwise 201, the created strategy stored under the new id, appended last, nothing else changed |
| StrategyRoutes.StrategyRepository.Update | server/routes/strategies.js:196-220 | 404 and no change for an unknown id; otherwise 200, the merged strategy in place, same key order, other entries unchanged |
| StrategyRoutes.StrategyRepository.Delete | server/routes/strategies.js:231-247 | 404 and no change for an unknown id; otherwise 200, exactly that entry removed |
| StrategyRoutes.StrategyRepository.Duplicate | server/routes/strategies.js:258-286 | 404 and no change for an unknown id; otherwise 201 and the copy appended, the original untouched |
| AuthRoutes.WithoutPassword | server/routes/auth.js:65 | the user the client sees keeps every stored field except the password |
| AuthRoutes.PasswordNeverShown | server/routes/auth.js:65 | the user the client sees does not depend on the stored password hash |
| AuthRoutes.DemoUser | server/routes/auth.js:12-22 | the demo account has the demo email and name, the hash of "demo123", a free plan with 1 of 3 strategies used, and the two clock reads as times |
| AuthRoutes.Registered | server/routes/auth.js:46-61 | a new account stores the password's hash and starts free, with 0 of 3 strategies used |
| AuthRoutes.FindById | server/routes/auth.js:133 | the first stored user with the id, or none when no user has it |
| AuthRoutes.FindByIdAppend | server/routes/auth.js:133 | appending a user never hides an earlier user with the same id |
| AuthRoutes.BearerToken | server/routes/auth.js:160-161 | a token is found only in a present header and never contains a space |
| AuthRoutes.BearerTokenOfHeader | server/routes/auth.js:160-161 | "scheme token" yields the token |
| AuthRoutes.AuthenticateToken | server/routes/auth.js:159-180 | 401 exactly without a token, 403 exactly when it does not verify, otherwise its verified payload |
| AuthRoutes.SignedTokenAccepted | server/routes/auth.js:159-180 | a token the server signed, sent as a bearer header, passes with its payload |
| AuthRoutes.UserRegistry.constructor | server/routes/auth.js:12-22 | the map starts with the demo account, which can log in with the demo password |
| AuthRoutes.UserRegistry.Register | server/routes/auth.js:28-73 | 400 without all fields or for a taken email, no change; otherwise 201, the new user appended, and the new user can log in and load their profile |
| AuthRoutes.UserRegistry.Login | server/routes/auth.js:84-121 | 400 without credentials; 200 with a signed session exactly when the email is stored and the password matches; 401 otherwise |
| AuthRoutes.UserRegistry.ProfileOf | server/routes/auth.js:133-146 | 404 exactly when no stored user has the token's id; otherwise that user without password |
| AuthRoutes.UserRegistry.Profile | server/routes/auth.js:131-148 | the middleware's 401 and 403 come first; an accepted token gets the profile lookup |
| ClientApi.ErrorText | src/stores/useStrategyStore.ts:41-46 | the thrown Error's message, or the fallback when something else was thrown |
| StrategyStore.ReplaceById | src/stores/useStrategyStore.ts:93 | same length; entries with the id replaced, every other entry kept in place |
| Seqs.FilterCounts | src/stores/useStrategyStore.ts:112 | `filter` keeps each element that passes as many times as the list holds it, and no other element |
| StrategyStore.RemoveById | src/stores/useStrategyStore.ts:112 | entries with the id removed, every other one kept in order and as many times as before |
| StrategyStore.RemoveAfterReplace | src/stores/useStrategyStore.ts:86-123 | deleting after updating the same id is just deleting |
| StrategyStore.RemoveAbsent | src/stores/useStrategyStore.ts:112 | deleting an unknown id leaves the list as it is |
| StrategyStore.RemoveAfterAppend | src/stores/useStrategyStore.ts:64-123 | deleting a just-created strategy removes it along with any older entry of the same id |
| StrategyStore.Store.constructor | src/stores/useStrategyStore.ts:27-32 | no strategies, no current strategy, no backtests, not loading, no error |
| StrategyStore.Store.LoadStrategies | src/stores/useStrategyStore.ts:34-47 | a delivered page replaces the list; an answer without success leaves the store loading; a throw records the error |
| StrategyStore.Store.LoadStrategy | src/stores/useStrategyStore.ts:49-62 | the same for the current strategy |
| StrategyStore.Store.Create | src/stores/useStrategyStore.ts:64-84 | a delivered strategy is appended and returned; otherwise the error is recorded and the promise rejects |
| StrategyStore.Store.Duplicate | src/stores/useStrategyStore.ts:125-145 | the same for the copy |
| StrategyStore.Store.Update | src/stores/useStrategyStore.ts:86-104 | a delivered strategy replaces the entries with the id, and the current strategy only if it has that id |
| StrategyStore.Store.Delete | src/stores/useStrategyStore.ts:106-123 | a successful answer removes the entries with the id and clears the current strategy only if it has that id |
| StrategyStore.Store.Generate | src/stores/useStrategyStore.ts:147-163 | the generated answer is returned and not stored; a failure records the error and rejects |
| StrategyStore.Store.RunBacktest | src/stores/useStrategyStore.ts:165-185 | a delivered result is appended to the history |
| StrategyStore.Store.LoadBacktestHistory | src/stores/useStrategyStore.ts:187-200 | a delivered list replaces the history |
| StrategyStore.Store.SetCurrentStrategy | src/stores/useStrategyStore.ts:202-204 | changes the current strategy only |
| StrategyStore.Store.ClearError | src/stores/useStrategyStore.ts:206-208 | clears the error only |
| AuthStore.Patched | src/stores/useAuthStore.ts:105-110 | each field present in the update overrides the user's field; absent ones are kept |
| AuthStore.PatchWithoutUpdates | src/stores/useAuthStore.ts:105-110 | an empty update keeps the user |
| AuthStore.PatchIdempotent | src/stores/useAuthStore.ts:105-110 | applying the same update twice is applying it once |
| AuthStore.Store.constructor | src/stores/useAuthStore.ts:21-27 | no user, no token, not loading, not authenticated; the browser's stored token is whatever it was |
| AuthStore.Store.SignIn | src/stores/useAuthStore.ts:30-46 | a delivered session stores the token in the browser and signs in; an answer without success keeps the session and leaves the store loading; a throw stops loading and rejects with the error text |
| AuthStore.Store.Persisted | src/stores/useAuthStore.ts:114-118 | the persisted part keeps the token, the user and "authenticated iff a token is held" |
| AuthStore.Store.Login | src/stores/useAuthStore.ts:29-47 | a delivered session stores the token in the browser and signs in; a throw stops loading and rejects; the invariant holds |
| AuthStore.Store.Register | src/stores/useAuthStore.ts:49-67 | the same as login |
| AuthStore.Store.Logout | src/stores/useAuthStore.ts:69-76 | forgets user and token, here and in the browser |
| AuthStore.Store.LoadProfile | src/stores/useAuthStore.ts:78-103 | nothing happens without a stored token; a delivered user signs in with the stored token; a throw signs out and forgets the token |
| AuthStore.Store.UpdateUser | src/stores/useAuthStore.ts:105-110 | merges the update into the user if there is one, changing nothing else |
| AIGenerator.Toggled | src/pages/AIGenerator.tsx:21-27 | the indicator ends up selected exactly when it was not; an absent one is appended, and removing a present one keeps the others in order and as many times as before |
| AIGenerator.ToggleKeepsNoDuplicates | src/pages/AIGenerator.tsx:21-27 | the toggle never selects an indicator twice |
| AIGenerator.ToggleTwiceRestores | src/pages/AIGenerator.tsx:21-27 | selecting and then deselecting gives back the list |
| AIGenerator.GeneratorForm.constructor | src/pages/AIGenerator.tsx:7-11 | forex, one hour, medium risk, nothing selected |
| AIGenerator.GeneratorForm.ToggleIndicator | src/pages/AIGenerator.tsx:21-27 | the indicator list becomes the toggled list; nothing else changes |
| AIGenerator.GeneratorForm.HandleGenerate | src/pages/AIGenerator.tsx:29-50 | an error exactly when the prompt is all white space; otherwise a request with the prompt and the whole form as context |
| AIGenerator.GeneratorForm.ReceiveGeneration | src/pages/AIGenerator.tsx:35-50 | success stores the answer with a success toast; failure keeps the old answer with an error toast; the form's prompt, market, timeframe, risk level and indicators are unchanged |
| AIGenerator.GeneratorForm.CanGenerate | src/pages/AIGenerator.tsx:171 | the button works exactly when nothing loads and the prompt has a non-space character |
| AIGenerator.PageGuardImpliesServerGuard | src/pages/AIGenerator.tsx:30-33 | what the page lets through also passes the server's guard, which alone would accept a prompt of spaces |
| AIGenerator.PageContextConfidence | src/pages/AIGenerator.tsx:36-43 | with the context the page sends, the confidence is the keyword part, plus 5 at low risk, plus 2 per selected indicator |
| Header.IsActivePath | src/components/layout/Header.tsx:35-37 | an active pathname always starts with the link's path |
| Header.ActiveIff | src/components/layout/Header.tsx:35-37 | active means the same path, or the path followed by "/" |
| Header.BelowIsActive | src/components/layout/Header.tsx:35-37 | every page below a link's path highlights it |
| Header.NoBoundaryNotActive | src/components/layout/Header.tsx:35-37 | a path that only shares the prefix, with no "/" after it, does not |
| Header.StrategiesX | src/components/layout/Header.tsx:35-37 | "/strategiesX" is not under "/strategies"; "/strategies/42" is |
| Header.ShorterNeverActive | src/components/layout/Header.tsx:35-37 | a shorter pathname is never active |

## Left out

Left out of the model:

- **The language model.**
  - The OpenAI client, its prompt and its parameters are not modelled.
  - The call is a `Backend` parameter that carries the message content (possibly none) or a
    failure.
  - The `uuidv4()` draws and the clock are parameters: `newId`, `strategyId`, `userId`, and
    `createdAt`/`updatedAt` (or `now`) for each `new Date()` call.
- **Timing.** The 1.5 s `setTimeout` delays and the interleaving of asynchronous calls are not
  modelled. Each store action is one step from its start to the settled call.
- **Express plumbing.**
  - Routing, JSON parsing and `console.error` are not modelled.
  - The catch paths answer 500, and they happen only when a body or query has the wrong JSON
    type (a number as prompt, an array as `tags`). Request fields are modelled as optional
    strings or typed values, so only `AiRoutes.GenerateStrategy` keeps a 500: the one for a
    failed model call.
- **Query parsing.**
  - `page` and `limit` are modelled as integers. Strings that are not numbers, and the mix of
    string arithmetic with `parseInt`, are not modelled.
  - A limit of 0 gives a JSON null page count (`TotalPages`). A negative limit is also accepted.
- **JSON null and extra fields.** JSON null in bodies and extra body fields are not modelled. A
  PUT body's fields are the ones `StrategyPatch` lists.
- **Text.**
  - Lower-casing covers ASCII and Latin-1 only.
  - `trim` is not simplified: `Text.IsWhitespace` is exactly ECMAScript's WhiteSpace and
    LineTerminator sets, with the Unicode space separators listed one by one. Only a separator a
    later Unicode version might add is not followed.
- **Fixed answers.** The PineScript bodies of the templates and of the improved strategy are kept
  as opaque texts (their first line).
- **Floating point.** `rating` is a real, and backtest metrics are not computed.
- **bcrypt and JWT.**
  - The salt makes bcrypt random. The model treats `hash` as a function and states the results
    of login in terms of `compare`.
  - JWT expiry is not modelled.
- **Persistence.** zustand's `persist` storage mechanics are not modelled; only what
  `partialize` keeps is stated. `localStorage` is the `storedToken` field.
- **Calls that are not store actions.** `api.ts` requests other than the outcome the stores see
  are not modelled. A thrown value that is not an `Error` is rethrown as is by the source; the
  model's `Rejected` carries only a text.
- **Rendering.** The JSX rendering of every page, and the remaining components, are not modelled.
- AiRoutes.GenerateMockStrategy: its ensures ties the answer to `MockResponse`. The bounds of the
  confidence (75 to 95) are stated on `MockResponse`, not on the method itself.
- StrategyRoutes.StrategyRepository.List: states that every listed strategy is stored and passes
  the filters, and bounds the total. The exact page contents are given by `ListPage` and the
  pagination lemmas rather than in the method's ensures.
