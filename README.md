# Session sync and Google sign-in of the HomeworkCenter extension, in Dafny

This project models the decision logic of a browser extension that keeps a
student's Gradescope and Courseworks (Canvas) sessions in sync with a backend,
and that signs the extension itself in with Google.

- `google_auth.dfy`, module `GoogleAuth`: the `google-auth` background handler.
  It asks Supabase for a Google OAuth URL and opens it in a new tab. It then
  registers a tab-updated listener and starts a 5-minute timer. The class
  `AuthFlow` holds the handler's state: the auth tab and whether it is open,
  how many `chrome.tabs.remove` calls were issued, whether the listener and the
  timer are live, the `"supabase_session"` storage slot, the one-shot result
  (pending, fulfilled with a session, or rejected) and the reply sent to the
  caller. There is one method per event (`OnTabUpdated`, `OnTimeout`).
  `ListenerEffect` is the pure specification of one listener run. The token
  rule (`PickToken`, `ExtractTokens`) is pure: it reads the URL fragment first,
  then the query, and an empty fragment value falls through.
- `check_sync_status.dfy`, module `CheckSyncStatus`: the `check-sync-status`
  background handler. It maps `site` to a `cookies_type` category, looks up
  the row of the fixed user for that category, and shapes the reply
  `{success, inSync, message?, error?}`. The store is a parameter: a function
  from row key to query outcome.
- `content_script.dfy`, module `ContentScript`: the `session-sync` content
  script. It derives the site name and key from the hostname, decides whether
  to prompt, and builds the notice texts. The class `SessionSync` holds the
  component's flags (`isSyncing`, `shouldShowToast`), the prompt handed to the
  timer, the messages sent and the notices shown.
- `js_string.dfy`, module `JsString`: the JavaScript string operations used:
  `includes`, `toLowerCase`, and first-letter capitalisation.
- `wrappers.dfy`, module `Wrappers`: `Option`, standing for `null`/`undefined`.

Behaviour of the code worth knowing:

- On timeout the listener is removed and the result is rejected, but the auth
  tab is NOT closed (`OnTimeout` keeps `authTabOpen`).
- The timer is never cleared. A timeout after a successful login still fires
  and changes nothing that matters.
- If `storage.set` throws after a successful exchange, the catch block removes
  the tab a second time, so `tabRemovals` is 2 on that path.
- The sync-status reply cannot tell a missing row from any other store error
  (`StoreErrorsIndistinguishable`).

## Model

| member | source | states |
|---|---|---|
| `CheckSyncStatus.CookiesTypeOf` | src/background/messages/check-sync-status.ts:12-19 | total classification: the category is gradescope exactly for "gradescope", courseworks exactly for "canvas", miscellaneous for every other or absent site |
| `CheckSyncStatus.LookupKey` | src/background/messages/check-sync-status.ts:22-27 | the row looked up always belongs to the hard-coded user; its category is miscellaneous exactly when the site is neither "gradescope" nor "canvas" |
| `CheckSyncStatus.Respond` | src/background/messages/check-sync-status.ts:29-53 | `success` is false implies `inSync` is false; success exactly when the query returned no error; `inSync` exactly when a row came back whose `in_sync` is the boolean true (null, absent, false or other values give false); any store error gives `{false, false, "No sync record found"}`; an exception gives `{false, false, error: message}` |
| `CheckSyncStatus.Handle` | src/background/messages/check-sync-status.ts:7-55 | the reply never has `inSync` without `success`; `inSync` holds exactly when the store's answer for (fixed user, category of site) is a row with `in_sync` true |
| `CheckSyncStatus.HandleReadsOneRow` | src/background/messages/check-sync-status.ts:22-27 | two stores that agree on the row of (fixed user, category of site) give the same reply |
| `CheckSyncStatus.StoreErrorsIndistinguishable` | src/background/messages/check-sync-status.ts:29-38 | a not-found error and any other store error produce the same unsuccessful reply |
| `GoogleAuth.ErrorText` | src/background/messages/google-auth.ts:84-87 | `error.message \|\| "Authentication failed"`: never empty; the message when it is non-empty, the fallback otherwise |
| `GoogleAuth.ReplyFor` | src/background/messages/google-auth.ts:78-87 | a fulfilled result replies `{success: true, session}`; a rejected one replies `{success: false, error}` with a non-empty error text |
| `GoogleAuth.PickToken` | src/background/messages/google-auth.ts:39-40 | the picked token is truthy exactly when the fragment or the query has a non-empty value; a non-empty fragment value wins; otherwise the query's value is taken |
| `GoogleAuth.ExtractTokens` | src/background/messages/google-auth.ts:35-42 | the listener proceeds exactly when both tokens are non-empty in the fragment or the query; each token comes from the fragment when non-empty there, else from the query |
| `GoogleAuth.IsRedirect` | src/background/messages/google-auth.ts:31 | the event concerns the auth tab and its URL is defined and contains the redirect URL at some index |
| `GoogleAuth.AuthFlow.RemoveAuthTab` | src/background/messages/google-auth.ts:50 | the auth tab is closed and one more removal call is counted |
| `GoogleAuth.ListenerEffect` | src/background/messages/google-auth.ts:30-67 | events for another tab or a URL not including the redirect URL, and redirects missing a token, have no effect; otherwise the result is settled and the tab removed once (twice when the storage write throws); a session is stored exactly when the result is fulfilled, and it is the one the exchange returned for the extracted tokens; a refused or throwing exchange or a parse failure rejects with that error |
| `GoogleAuth.AuthFlow.Start` | src/background/messages/google-auth.ts:10-29 | with a truthy OAuth URL: the auth tab is open, the listener and timer are live and the result is pending; with a null or empty URL: rejected with "Failed to get OAuth URL" and that reply sent; if sign-in throws: rejected with its error; no tab opened on either failure path |
| `GoogleAuth.AuthFlow.Settle` | src/background/messages/google-auth.ts:54-58 | only the first settlement changes the result, and the reply is sent then |
| `GoogleAuth.AuthFlow.OnTabUpdated` | src/background/messages/google-auth.ts:30-67 | a deregistered listener changes nothing; otherwise the new state is what `ListenerEffect` says: on settlement the listener is removed, the tab closed, the result and reply set, and the slot written only on success; the object invariant holds (listener registered exactly while pending) |
| `GoogleAuth.AuthFlow.OnTimeout` | src/background/messages/google-auth.ts:72-75 | the listener is removed and the timer is spent; a pending result is rejected with "Authentication timeout"; a settled result and its reply are unchanged; the auth tab stays open and the storage slot is untouched |
| `JsString.ToLowerCase` | src/contents/session-sync.tsx:42 | same length, each character lower-cased (ASCII) |
| `JsString.Includes` | src/contents/session-sync.tsx:38 | `includes`: the empty string is always included, and nothing longer than the string is |
| `JsString.IncludesHasOccurrence` | src/contents/session-sync.tsx:38 | whatever `includes` accepts occurs in the string at some index |
| `JsString.OccurrenceIncluded` | src/background/messages/google-auth.ts:31 | every occurrence at an index is accepted by `includes` |
| `JsString.IncludesIffOccurs` | src/contents/session-sync.tsx:38 | `includes` holds exactly when the pattern occurs in the string at some index |
| `JsString.IncludesInfix` | src/background/messages/google-auth.ts:31 | a string placed between any prefix and suffix is included |
| `JsString.NotIncludesWithoutFirstChar` | src/contents/session-sync.tsx:38 | a string lacking the first character of a non-empty pattern does not include it |
| `JsString.CapitalizeFirst` | src/contents/session-sync.tsx:99 | same length; the first character upper-cased, the rest unchanged |
| `ContentScript.SiteName` | src/contents/session-sync.tsx:37-40 | "Gradescope" exactly when the hostname includes "gradescope", "Canvas" exactly when it does not |
| `ContentScript.SiteKey` | src/contents/session-sync.tsx:41-42 | "gradescope" exactly when the lower-cased name is "gradescope", "canvas" otherwise |
| `ContentScript.SiteKeyOfHost` | src/contents/session-sync.tsx:37-42 | the key is "gradescope" exactly for hostnames including "gradescope", "canvas" for all others |
| `ContentScript.NeverMiscellaneous` | src/contents/session-sync.tsx:41-50 | the key the page sends is always filed by the background under gradescope or courseworks, never miscellaneous |
| `ContentScript.GradescopeHost` | src/contents/session-sync.tsx:17 | the injected Gradescope host gets key "gradescope" |
| `ContentScript.CourseworksHost` | src/contents/session-sync.tsx:18 | the injected Courseworks host gets key "canvas" |
| `ContentScript.PromptUnlessRowInSync` | src/contents/session-sync.tsx:45-54 | together with the background handler: the prompt is suppressed exactly when the store holds a row of (fixed user, page category) with `in_sync` true |
| `ContentScript.ShouldPrompt` | src/contents/session-sync.tsx:53 | a prompt whenever the check is unsuccessful; suppressed exactly when the response is both successful and in sync |
| `ContentScript.PromptFor` | src/contents/session-sync.tsx:56-66 | the site the button syncs is "gradescope" or "canvas", and the background never files it as miscellaneous |
| `ContentScript.PromptSyncsNamedSite` | src/contents/session-sync.tsx:56-66 | for every page: title and button label name the page's site, the success text for the key the button syncs names that same site, and the key is filed under gradescope exactly for hostnames including "gradescope", courseworks otherwise |
| `ContentScript.SuccessText` | src/contents/session-sync.tsx:99 | the key with its first letter upper-cased and the rest unchanged, followed by " session synced successfully!" |
| `ContentScript.FailureText` | src/contents/session-sync.tsx:102 | "Failed to sync ", the key as sent, then " session" |
| `ContentScript.ExceptionText` | src/contents/session-sync.tsx:106 | "Error syncing session: " followed by the error message, or by "undefined" when the error has none |
| `ContentScript.SyncNotice` | src/contents/session-sync.tsx:97-106 | a success notice exactly for a `success: true` reply, with the capitalised site and " session synced successfully!"; "Failed to sync <site> session" for `success: false`; "Error syncing session: <message>" for an exception |
| `ContentScript.SuccessTextNamesSite` | src/contents/session-sync.tsx:97-100 | for the key a page sends, the success text starts with the same site name the prompt shows |
| `ContentScript.SessionSync.constructor` | src/contents/session-sync.tsx:30-31 | both flags start false; nothing sent, shown or outstanding; the invariant that `isSyncing` implies an outstanding request holds |
| `ContentScript.SessionSync.CheckSyncStatus` | src/contents/session-sync.tsx:34-74 | sends `check-sync-status` with the derived key; `shouldShowToast` is raised when the check throws or the response is unsuccessful or not in sync; the prompt is scheduled only in the latter case, not when the check throws |
| `ContentScript.SessionSync.StartSyncSession` | src/contents/session-sync.tsx:79-95 | `isSyncing` is raised; `copy-session` is sent with `tab.url` the page URL, `tab.id` null and the given site; the request is outstanding; the invariant that `isSyncing` implies an outstanding request is kept |
| `ContentScript.SessionSync.ClickSyncButton` | src/contents/session-sync.tsx:62-64 | a click on the scheduled prompt sends `copy-session` with `tab.url` the page URL, `tab.id` null and the prompt's key, which the background never files as miscellaneous; that request is outstanding and `isSyncing` is raised |
| `ContentScript.SessionSync.FinishSyncSession` | src/contents/session-sync.tsx:96-110 | the answered request is no longer outstanding; its notice is appended; `isSyncing` is false on every path |

## Left out

- Everything the handlers call on the host is an input or is left out: URL parsing, Supabase's `signInWithOAuth`, `setSession` and table queries, and Chrome's tabs, identity and storage calls. Inputs are the fragment and query maps, the exchange function, the query outcome and the redirect URL.
- Real time is not modelled. The 300000 ms timeout is an explicit event (`OnTimeout`). The prompt handed to the 500 ms timer is recorded; the delay and the prompt's firing are not modelled.
- Interleavings are not modelled. Each tab-updated event runs atomically, so duplicate redirect events racing across the `await` of the token exchange are not modelled.
- `URLSearchParams` with a repeated name is not modelled. `get` returns the first value, and the model abstracts the parameters as a map.
- `JsString.ToLowerCase`: lower-cases only ASCII letters, because the only strings it is applied to are ASCII literals. The same holds for upper-casing the first letter.
- `JsString.CapitalizeFirst`: upper-cases only an ASCII first letter, and keeps the length, where `toUpperCase` covers all of Unicode and can lengthen a string. In the code the only keys that reach it are "gradescope" and "canvas". The model guarantees this for requests sent through `ClickSyncButton`: `SessionSync.Valid` keeps a scheduled prompt's key to those two, and the click sends that key. `StartSyncSession` on its own accepts any site.
- `CheckSyncStatus.CookiesTypeOf`: a request without a body makes the handler throw. The model does not produce that case; an absent `site` is modelled.
- `ContentScript.SessionSync.CheckSyncStatus`: a reply that is missing entirely (`response` undefined) is not modelled.
- `copy-session` is not modelled beyond the reply the content script receives. Its handler reads cookies and storage through host calls and then answers `{success: true}`, unless one of those host calls throws, in which case it sends no reply. The reply is an unconstrained input here.
- The popup, the toast components and the styling are not modelled. They are rendering only.
- `lib/supabase.ts` is not part of this model. It is a thin adapter over foreign libraries.
- Logging through `console.log` and `console.error` is not modelled. It has no effect on state or replies.
- No handler writes captured sessions to the store, so the model has no insert-or-update step.
- `ContentScript.SessionSync`: a second `copy-session` request started while one is outstanding is modelled, but `isSyncing` then falls to false when either completes, as in the code. The model does not promise that `isSyncing` stays true while any request is outstanding.
