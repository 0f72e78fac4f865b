# To-do and chat front end — a Dafny model

This project models the browser side of a to-do application that also has a chat
assistant. The pieces modelled are:

- **Token store and fetch wrapper** (`api.dfy`). The bearer token lives in local
  storage under `auth_token`. Every request gets a JSON content type, plus an
  `Authorization: Bearer …` header when a token is stored. The reply is classified:
  - 204 gives no content.
  - 401 drops the token, sends the window to `/signin` and throws.
  - Any other non-2xx status throws an `ApiError`, whose message is the body's
    `detail`, else its `message`, else `HTTP error <status>`.
  - Otherwise the parsed body is returned.
- **Token handling** (`auth.dfy`). The JWT payload is read without checking the
  signature. Expiry compares `exp` seconds with a millisecond clock, and every
  failure is closed: a token that cannot be read has no user and counts as expired.
  Sign-in, sign-up, sign-out and "current user" all act on the token store.
- **Authentication provider** (`auth_context.dfy`). This is the stateful holder of
  `user` and `isLoading`: the start-up check, login, signup and logout.
- **Chat hook** (`chat.dfy`). The chat state and its transitions: open, close,
  toggle, clear, an optimistic send and loading a conversation. It also covers runs
  of these updates when their phases interleave.
- **Task service** (`task_api.dfy`). The REST calls on `/api/todos`: list, create,
  update (a payload with only the fields given), delete, mark, and toggle (read the
  list, find the task, send the opposite status).
- **Dashboard page** (`dashboard.dfy`). The task list and its handlers, each with
  its own fixed error message.
- **Sign-up page** (`signup_page.dfy`). The email pattern, the ordered password
  rules and the submit handler.
- **Theme** (`theme.ts` → `theme.dfy`, `theme_provider.dfy`). The stored preference,
  how `system` resolves against the colour-scheme query, the classes on the root
  element and the provider that keeps them in step.
- **Chat widgets** (`message_input.dfy`, `message_bubble.dfy`). The input box's
  send rule, and the bubble's line-by-line formatter. The formatter handles
  `**bold**`, list lines and `` `code` ``. The regular-expression `split` it uses is
  written out exactly, including the lazy group's stop at line terminators.

Browser globals are modelled together as one object, `Globals.Browser`:
- whether `window` exists
- `localStorage`, as a map
- the root element's classes
- the location
- the colour-scheme preference

Everything outside the program is a parameter:
- what the network answered (`Response`)
- what the chat service or the task handlers received (`Result` values)
- the clock
- generated ids
- the confirmation dialog
- the base64-and-JSON decoding of a token segment (`SegmentDecoder`)

Where the code and its documentation differ, the model follows the code:
- The `Authorization` header is added only when the stored token is a non-empty
  string. `getCurrentUser`, `signout` and the start-up check likewise treat an empty
  token as no token.
- The start-up check returns without clearing `isLoading` when there is no
  `window`.
- The start-up check's "failed to decode" branch cannot be reached.
  `isTokenExpired` already fails closed on every token that `decodeToken` rejects
  (`Auth.UndecodableTokenIsExpired`).
- The dashboard's `loadTasks` with no user returns before touching `loading`.
- `createTask`, `updateTask` and the other task calls accept a user id and never
  use it.

## Model

| member | source | states |
|---|---|---|
| Text.LeadingSpace | src/components/chatbot/useChat.ts:47 | the count covers only whitespace and stops at the first non-whitespace character (helper of `trim`) |
| Text.TrailingSpace | src/components/chatbot/useChat.ts:47 | the count covers only trailing whitespace and stops at the last non-whitespace character (helper of `trim`) |
| Text.TrimStart | src/components/chatbot/useChat.ts:47 | never longer than the input; the result does not start with whitespace |
| Text.TrimEnd | src/components/chatbot/useChat.ts:47 | never longer than the input; the result does not end with whitespace |
| Text.TrimStartIsSuffix | src/components/chatbot/useChat.ts:47 | what is kept is a suffix of the input, and everything cut is whitespace |
| Text.TrimEndIsPrefix | src/components/chatbot/useChat.ts:47 | what is kept is a prefix of the input, and everything cut is whitespace |
| Text.TrimCutsOnlyWhitespace | src/components/chatbot/useChat.ts:47 | the trimmed text is a slice `s[a..b]` of the input with only whitespace before `a` and after `b` |
| Text.Trim | src/components/chatbot/useChat.ts:47 | the trimmed text neither starts nor ends with whitespace |
| Text.TrimStartEmptyIffBlank | src/components/chatbot/useChat.ts:47 | trimming the start leaves nothing exactly when the text is all whitespace |
| Text.TrimEndEmptyIffBlank | src/components/chatbot/useChat.ts:47 | trimming the end leaves nothing exactly when the text is all whitespace |
| Text.TrimEmptyIffBlank | src/components/chatbot/MessageInput.tsx:26 | `!s.trim()` holds exactly when every character is whitespace |
| Text.IndexOf | src/app/signup/page.tsx:37 | the first position of the character, or none when it does not occur |
| Text.Split | src/lib/auth.ts:23 | `split` on a character gives at least one piece, and no piece contains the separator |
| Text.CountAppend | src/lib/auth.ts:23-24 | separator counts add up over concatenation |
| Text.CountAbsent | src/lib/auth.ts:23-24 | a text without the separator has a count of zero |
| Text.JoinSplit | src/lib/auth.ts:23 | joining the pieces of a split with the separator gives the text back |
| Text.SplitLength | src/components/chatbot/MessageBubble.tsx:87 | a split has one more piece than the text has separators |
| Text.SplitJoin | src/lib/auth.ts:23-24 | splitting the join of separator-free pieces gives the pieces back |
| Text.NatToString | src/lib/api.ts:104 | the decimal rendering of a status is non-empty and all digits |
| Text.IntToString | src/lib/api.ts:104 | the rendering of an integer is non-empty |
| Text.DigitsValueOfNatToString | src/lib/api.ts:104 | reading the rendering back gives the number |
| Json.Prop | src/lib/api.ts:102-103 | a property read is defined exactly when the value is an object that has the key, and it gives that field |
| Json.Or | src/lib/auth.ts:29 | `a \|\| b` is `a` when `a` is truthy, else `b`; it is truthy iff either side is |
| Json.TruthyNonArrayRendersNonEmpty | src/lib/api.ts:101-104 | a truthy value other than an array is never the empty string under `String()` |
| Json.EmptyArrayIsTruthyButRendersEmpty | src/lib/api.ts:101-104 | `[]` is truthy, yet `String([])` is the empty string |
| Json.StringToNumberOfRendering | src/lib/auth.ts:51 | a string of decimal digits coerces to the number it spells |
| Api.GetToken | src/lib/api.ts:11-14 | a token exactly when there is a window and `auth_token` is stored, and it is the stored string |
| Api.IsAuthenticated | src/lib/api.ts:35-37 | authenticated exactly when there is a window and `auth_token` is stored, whatever its value |
| Api.EmptyTokenIsAuthenticatedWithoutHeader | src/lib/api.ts:35-37 | a stored empty token counts as authenticated, yet requests built from it carry no `Authorization` header |
| Api.SetToken | src/lib/api.ts:19-22 | with a window, the token is stored under `auth_token` and reads back; without one, nothing changes |
| Api.RemoveToken | src/lib/api.ts:27-30 | the key is gone and the user is not authenticated; without a window, storage is unchanged |
| Api.Headers | src/lib/api.ts:63-70 | always a JSON content type; `Authorization` is present iff the token is a non-empty string, and it is then `Bearer <token>`; no other header |
| Api.SentBody | src/lib/api.ts:114-153 | only POST, PUT and PATCH send a body, and only when it is truthy |
| Api.KnownMessage | src/app/signup/page.tsx:84 | an `Error` the program threw has its message; an engine `TypeError` or a failed fetch has none the model knows |
| Api.ErrorMessage | src/lib/api.ts:100-105 | the body's truthy `detail`, else its truthy `message`, else `HTTP error <status>` |
| Api.FallbackMessageNamesStatus | src/lib/api.ts:104 | the fallback message names the status, and the status can be read back from it |
| Api.EmptyArrayDetailGivesEmptyMessage | src/lib/api.ts:100-105 | a `detail` of `[]` is truthy and wins over the fallback, so the error message is empty |
| Api.Classify | src/lib/api.ts:77-108 | 204 is no content and is checked before 401; 401 throws the fixed unauthorized error; 2xx returns the body, or null when it does not parse; any other status throws an `ApiError` with that status and the body; an unreachable server throws |
| Api.ApiFetch | src/lib/api.ts:57-109 | the request carries the headers built from the stored token; the result is the classification; a 401 removes the token and moves the location to `/signin` when there is a window; every other outcome leaves storage and location alone |
| Api.ApiRequest | src/lib/api.ts:114-153 | the verb helpers are `apiFetch` with the body rule applied, with the same session effect |
| Auth.Payload | src/lib/auth.ts:23-26 | a token with other than three parts has no payload; a payload is the decoded middle segment, never null |
| Auth.DecodeToken | src/lib/auth.ts:21-35 | a user exactly when there is a payload; `user_id` is `sub` when truthy, else `user_id`; `email` is copied; no user for a token with other than three parts |
| Auth.DecodeTokenField | src/context/AuthContext.tsx:72 | only a string token can decode; a string decodes as `decodeToken` does |
| Auth.IsTokenExpired | src/lib/auth.ts:40-55 | with no expiration time, expired exactly when there is no payload (fail closed); a NaN time is never expired; otherwise expired exactly when no time is left |
| Auth.ExpirationTime | src/lib/auth.ts:60-74 | a time exactly when there is a payload with a truthy `exp`; a numeric `exp` of `e` seconds leaves `e*1000 - now` ms; an object `exp` gives NaN |
| Auth.MalformedTokenIsExpired | src/lib/auth.ts:40-74 | a token with other than three parts has no user, is expired and has no expiration time |
| Auth.UndecodableTokenIsExpired | src/lib/auth.ts:40-55 | every token `decodeToken` rejects counts as expired, so an unexpired token always decodes |
| Auth.NoExpClaimNeverExpires | src/lib/auth.ts:48 | a missing or falsy `exp` (0 included) never expires and has no expiration time |
| Auth.NumericExpClaim | src/lib/auth.ts:51 | a numeric `exp` of `e` seconds is expired exactly when `now >= e*1000`, with `e*1000 - now` ms left |
| Auth.ExpiredIffNoTimeLeft | src/lib/auth.ts:60-74 | expired exactly when the expiration time is not positive |
| Auth.ExpiryIsPermanent | src/lib/auth.ts:51 | once expired, a token stays expired at every later time |
| Auth.DecodeAssembledToken | src/lib/auth.ts:21-35 | a token built from three dot-free segments decodes its middle segment's claims |
| Auth.CredentialsOutcome | src/lib/auth.ts:80-87 | the awaited reply: the data on success, the thrown error on failure, and a `TypeError` when reading `token` from an empty or null reply |
| Auth.SubmitCredentials | src/lib/auth.ts:79-102 | the request posts `{email, password}` with the headers of the stored token; the outcome is the awaited reply; a 401 removes the token and redirects to `/signin` (with a window); otherwise a truthy token is stored as its string and every other key and the location are kept |
| Auth.SignIn | src/lib/auth.ts:93-102 | posts `{email, password}` to `/api/auth/sign-in`; the same outcome and session effect: 401 removes the token and redirects, a truthy token is stored |
| Auth.SignUp | src/lib/auth.ts:79-88 | posts `{email, password}` to `/api/auth/sign-up`; the same outcome and session effect: 401 removes the token and redirects, a truthy token is stored |
| Auth.SignOut | src/lib/auth.ts:107-121 | the logout endpoint is called iff a non-empty token is stored, with its bearer header; whatever it answers, only the token is removed; the location moves to `/signin` only when that call got a 401 with a window |
| Auth.GetCurrentUser | src/lib/auth.ts:126-136 | no user without a token; an expired token is removed and gives no user; otherwise the token's decoded user, storage untouched |
| AuthContext.AuthProvider.constructor | src/context/AuthContext.tsx:27-29 | no user, loading |
| AuthContext.AuthProvider.CheckAuth | src/context/AuthContext.tsx:32-61 | without a window nothing changes, not even loading; otherwise an expired token is removed and clears the user, an unexpired one sets the decoded user, and loading ends |
| AuthContext.AuthProvider.Login | src/context/AuthContext.tsx:66-82 | the sign-in outcome is rethrown; a decodable token sets the user, anything else keeps the old user; loading ends either way; storage and location change exactly as sign-in changes them (401: token removed and redirect; truthy token stored) |
| AuthContext.AuthProvider.Signup | src/context/AuthContext.tsx:87-103 | the same as login, against the sign-up endpoint, with the same session effect |
| AuthContext.AuthProvider.Logout | src/context/AuthContext.tsx:108-111 | the user is cleared and only the token is removed from storage; the location moves to `/signin` exactly when a non-empty token was stored, the logout call got a 401 and there is a window; loading is untouched |
| AuthContext.AuthProvider.IsAuthenticated | src/context/AuthContext.tsx:115 | authenticated exactly when a user is set |
| Chat.IdOrUndefined | src/components/chatbot/useChat.ts:68 | `conversationId \|\| undefined`: only a non-empty id is passed on |
| Chat.Opened | src/components/chatbot/useChat.ts:25-27 | the panel is open and nothing else changes |
| Chat.Closed | src/components/chatbot/useChat.ts:29-31 | the panel is closed and nothing else changes |
| Chat.Toggled | src/components/chatbot/useChat.ts:33-35 | the open flag flips and nothing else changes |
| Chat.ToggleTwice | src/components/chatbot/useChat.ts:33-35 | toggling twice gives the state back |
| Chat.Cleared | src/components/chatbot/useChat.ts:37-44 | no messages, no conversation, no error; the open and loading flags are kept |
| Chat.SendStarted | src/components/chatbot/useChat.ts:49-63 | exactly one message is appended: the trimmed text as a user message in the current conversation (or `''`); loading, no error |
| Chat.SendSucceeded | src/components/chatbot/useChat.ts:71-85 | the reply is appended as an assistant message and its conversation id adopted; loading ends |
| Chat.SendFailed | src/components/chatbot/useChat.ts:86-91 | the messages are kept (no rollback); loading ends; the error's message, or `Failed to send message` |
| Chat.LoadStarted | src/components/chatbot/useChat.ts:96 | loading, no error, nothing else changes |
| Chat.LoadSucceeded | src/components/chatbot/useChat.ts:99-106 | the loaded messages replace the list and the conversation id is set |
| Chat.LoadFailed | src/components/chatbot/useChat.ts:107-112 | the list is kept; the error's message, or `Failed to load conversation` |
| Chat.AfterSend | src/components/chatbot/useChat.ts:46-93 | blank text changes nothing; otherwise the old messages stay a prefix, the user message stamped at send time and then, on success, the reply are appended, loading ends, the open flag is kept, and the error is cleared or set from the failure |
| Chat.BlankSendIsIgnored | src/components/chatbot/useChat.ts:47 | sending blank text changes nothing |
| Chat.SentThenAnswered | src/components/chatbot/useChat.ts:46-85 | a successful send leaves the old messages, then the trimmed user message stamped at send time, then the reply stamped at reply time, in the reply's conversation, with no error |
| Chat.SentThenFailed | src/components/chatbot/useChat.ts:46-92 | a failed send leaves the old messages plus the user message, the conversation unchanged, and the error shown |
| Chat.RunKeepsLoadingHidesError | src/components/chatbot/useChat.ts:58-112 | over any interleaving of the hook's updates, whenever a request is in flight no error is shown |
| Chat.RunOnlyAppends | src/components/chatbot/useChat.ts:58-91 | without a clear or a load, messages are only appended: the old list stays a prefix |
| Chat.ChatSession.constructor | src/components/chatbot/useChat.ts:13-22 | the initial state: closed, empty, idle, no conversation, no error |
| Chat.ChatSession.OpenChat | src/components/chatbot/useChat.ts:25-27 | the state becomes `Opened` of the old state |
| Chat.ChatSession.CloseChat | src/components/chatbot/useChat.ts:29-31 | the state becomes `Closed` of the old state |
| Chat.ChatSession.ToggleChat | src/components/chatbot/useChat.ts:33-35 | the state becomes `Toggled` of the old state |
| Chat.ChatSession.ClearConversation | src/components/chatbot/useChat.ts:37-44 | the state becomes `Cleared` of the old state |
| Chat.ChatSession.SendMessage | src/components/chatbot/useChat.ts:46-93 | a request is sent iff the text is not blank, carrying the trimmed text and the non-empty conversation id; the state is the send's outcome, with the two timestamps read at send and at reply |
| Chat.ChatSession.LoadConversation | src/components/chatbot/useChat.ts:95-114 | the state is the load's outcome after loading has started |
| TaskApi.Awaited | src/lib/api.ts:77-108 | the awaited value of a call: it throws iff the fetch failed, is `undefined` iff 204, otherwise the data |
| TaskApi.TodosOrEmpty | src/lib/taskApi.ts:51-52 | errors pass through; reading `todos` from `undefined` or null throws a `TypeError`; a missing or falsy `todos` gives `[]`, a truthy one is returned |
| TaskApi.GetUserTasks | src/lib/taskApi.ts:48-53 | a GET on `/api/todos`; the result is `todos`, or `[]` |
| TaskApi.CreateBody | src/lib/taskApi.ts:63-67 | the body has `title` and `completed: false`, and `description` only when one is given |
| TaskApi.CreateTask | src/lib/taskApi.ts:58-68 | a POST on `/api/todos` with that body; the result is the awaited reply |
| TaskApi.UpdatePayloadIsUnique | src/lib/taskApi.ts:78-88 | the update payload is determined by the update |
| TaskApi.BuildUpdatePayload | src/lib/taskApi.ts:78-88 | the payload has exactly the given fields; a status becomes `completed` iff it is `completed` |
| TaskApi.UpdateTask | src/lib/taskApi.ts:73-91 | a PUT on `/api/todos/<id>` whose body is the update payload |
| TaskApi.DeleteTask | src/lib/taskApi.ts:96-98 | a DELETE on `/api/todos/<id>`; it throws exactly when the fetch failed, with that error, and otherwise resolves to `undefined` whatever the body |
| TaskApi.Find | src/lib/taskApi.ts:109 | `find` returns the first task with the id; none iff every item was passed over; reading `id` from a null item before a match throws |
| TaskApi.ShiftPassedOver | src/lib/taskApi.ts:109 | passing over the tail is passing over the list after its head |
| TaskApi.ToggleTarget | src/lib/taskApi.ts:108-115 | errors pass through; a non-array list throws; a missing task throws `Task not found`; a found task gives the opposite of its completion |
| TaskApi.AbsentIdNotFound | src/lib/taskApi.ts:111-113 | a list without the id throws `Task not found` |
| TaskApi.FindsFirstMatch | src/lib/taskApi.ts:109 | `find` returns the first item with the id when every earlier item is passed over |
| TaskApi.ToggleInvertsStatus | src/lib/taskApi.ts:103-120 | the toggle sends `completed: true` exactly when the found task is not completed |
| TaskApi.ToggleTaskCompletion | src/lib/taskApi.ts:103-120 | first a GET of the list; the PATCH on `/api/todos/<id>/complete` is sent only when the task is found, with the inverted status; otherwise the list error or the not-found error; the session effect is that of the last call made (a 401 on the list stops before the PATCH) |
| TaskApi.MarkTask | src/lib/taskApi.ts:125-144 | a PATCH on `/api/todos/<id>/complete` with the given `completed` |
| Dashboard.ReplaceById | src/app/dashboard/page.tsx:85 | the same length, and each task with the id is replaced while the rest are kept in place |
| Dashboard.ReplaceIsIdempotent | src/app/dashboard/page.tsx:85 | replacing twice is replacing once |
| Dashboard.ReplaceKeepsIds | src/app/dashboard/page.tsx:111 | the ids of the list are kept position by position |
| Dashboard.RemoveById | src/app/dashboard/page.tsx:99 | a task is kept exactly when it was in the list and has another id |
| Dashboard.RemoveKeepsOrder | src/app/dashboard/page.tsx:99 | the filter distributes over concatenation, so order is kept |
| Dashboard.RemoveAbsentIsIdentity | src/app/dashboard/page.tsx:99 | removing an absent id changes nothing |
| Dashboard.RemoveIsIdempotent | src/app/dashboard/page.tsx:99 | removing twice is removing once |
| Dashboard.NonEmpty | src/app/dashboard/page.tsx:62 | `s \|\| undefined`: only a non-empty description is passed on |
| Dashboard.CreateCall | src/app/dashboard/page.tsx:57-63 | no call without a user or with a blank title; otherwise the trimmed title and the trimmed description when non-empty |
| Dashboard.DashboardPage.constructor | src/app/dashboard/page.tsx:26-33 | the page's initial state |
| Dashboard.DashboardPage.LoadTasks | src/app/dashboard/page.tsx:40-54 | no user: nothing happens; otherwise the list is fetched, replaces the tasks and clears the error, or the load error is shown; loading ends |
| Dashboard.DashboardPage.HandleCreateTask | src/app/dashboard/page.tsx:56-73 | the call made; success prepends the new task, clears the form and closes the modal; failure shows the create error and keeps the form |
| Dashboard.DashboardPage.SettleCreate | src/app/dashboard/page.tsx:59-72 | the effect of the settled create request on the page |
| Dashboard.DashboardPage.HandleUpdateTask | src/app/dashboard/page.tsx:75-92 | nothing without an edited task or a user; success replaces the task by id and closes the editor; failure shows the update error |
| Dashboard.DashboardPage.HandleDeleteTask | src/app/dashboard/page.tsx:94-104 | nothing without a user or the user's confirmation; success filters the task out; failure shows the delete error |
| Dashboard.DashboardPage.HandleToggleCompletion | src/app/dashboard/page.tsx:106-116 | success replaces the task by id; failure shows the status error |
| Dashboard.DashboardPage.HandleEditTask | src/app/dashboard/page.tsx:118-121 | a copy of the task is edited and the editor opens; nothing else changes |
| SignupPage.ValidEmailIffAtSignForm | src/app/signup/page.tsx:37 | the email pattern holds exactly when there is one `@`, with plain text before it and a plain remainder after it containing an inner `.` |
| SignupPage.ValidEmailHasAtSignForm | src/app/signup/page.tsx:37 | a matching email has that `@`-split form |
| SignupPage.AtSignFormIsValidEmail | src/app/signup/page.tsx:37 | an email with that form matches the pattern |
| SignupPage.EmailExamples | src/app/signup/page.tsx:36-44 | `invalid-email` is rejected and `user@example.com` accepted |
| SignupPage.FirstProblem | src/app/signup/page.tsx:46-65 | no problem iff all four rules hold; otherwise the first broken rule in the order length, upper case, lower case, digit |
| SignupPage.PasswordExamples | src/app/signup/page.tsx:46-65 | `weak` is too short; the later rules are reported in order |
| SignupPage.FailureText | src/app/signup/page.tsx:84 | the error's message when non-empty, else the fallback; never empty |
| SignupPage.SignupForm.constructor | src/app/signup/page.tsx:27-34 | empty errors, not loading, not routed |
| SignupPage.SignupForm.ValidateEmail | src/app/signup/page.tsx:36-44 | the verdict is the email pattern, and the field error is set or cleared to match |
| SignupPage.SignupForm.ValidatePassword | src/app/signup/page.tsx:46-65 | the verdict is all four rules, and the field error is the first broken rule's message |
| SignupPage.SignupForm.HandleSubmit | src/app/signup/page.tsx:67-88 | both checks always run; signup happens iff both pass, and then the provider's user, loading flag, storage and location are exactly those of `signup`; without it the provider and the session are untouched; success routes to `/dashboard`, failure shows the error text; loading ends |
| Themes.ParseTheme | src/lib/theme.ts:36-43 | only `light`, `dark` and `system` are accepted, as themselves |
| Themes.ParseThemeName | src/lib/theme.ts:39-41 | every theme's name reads back as the theme |
| Themes.GetSystemTheme | src/lib/theme.ts:26-31 | never `system`; light without a window; otherwise dark iff the dark preference matches |
| Themes.GetStoredTheme | src/lib/theme.ts:36-43 | a theme exactly when a window exists and storage holds one of the three names |
| Themes.StoreTheme | src/lib/theme.ts:48-51 | with a window, storing then reading gives the theme back; without one, nothing changes |
| Themes.ResolveTheme | src/lib/theme.ts:56-61 | never `system`; explicit themes resolve to themselves; `system` resolves to the system theme |
| Themes.ResolveIsIdempotent | src/lib/theme.ts:56-61 | resolving twice is resolving once |
| Themes.ApplyTheme | src/lib/theme.ts:66-71 | `light` and `dark` are removed and the theme's class added; other classes are kept |
| ThemeProvider.Opposite | src/components/providers/ThemeProvider.tsx:88 | light and dark swap |
| ThemeProvider.OppositeTwice | src/components/providers/ThemeProvider.tsx:87-90 | toggling twice from a resolved theme gives it back |
| ThemeProvider.Provider.constructor | src/components/providers/ThemeProvider.tsx:32-38 | the default theme, resolved as light, not mounted |
| ThemeProvider.Provider.Mount | src/components/providers/ThemeProvider.tsx:41-50 | the stored theme or else the default; resolved; with a window the root loses `light`/`dark` and gains the resolved class, all else kept; storage untouched |
| ThemeProvider.Provider.SetTheme | src/components/providers/ThemeProvider.tsx:69-84 | the theme is set and resolved; storage gains exactly the theme's name under the theme key; the root gains the transition class and the resolved class, loses the other of `light`/`dark`, all else kept |
| ThemeProvider.Provider.FinishTransition | src/components/providers/ThemeProvider.tsx:81-83 | only the transition class is removed; consistency is kept |
| ThemeProvider.Provider.ToggleTheme | src/components/providers/ThemeProvider.tsx:87-90 | the new theme is the opposite of the resolved one, explicit; storage and root classes change exactly as `setTheme` changes them |
| ThemeProvider.Provider.SystemPreferenceChanged | src/components/providers/ThemeProvider.tsx:53-66 | under `system` the resolved theme follows the preference and the root classes become exactly the old ones with `light`/`dark` replaced by it; otherwise nothing visible changes; consistency is kept |
| MessageInput.CanSend | src/components/chatbot/MessageInput.tsx:26 | sendable exactly when the text is not all whitespace, nothing is loading and the box is enabled |
| MessageInput.EmptyBoxCannotSend | src/components/chatbot/MessageInput.tsx:26 | an empty box can never send |
| MessageInput.InputBox.constructor | src/components/chatbot/MessageInput.tsx:23 | the box starts empty |
| MessageInput.InputBox.Change | src/components/chatbot/MessageInput.tsx:23 | the box holds the typed text |
| MessageInput.InputBox.HandleSend | src/components/chatbot/MessageInput.tsx:28-33 | when sendable, the untrimmed message is sent once and the box empties, so it cannot be sent again; otherwise nothing happens |
| MessageInput.InputBox.HandleKeyDown | src/components/chatbot/MessageInput.tsx:35-40 | Enter without Shift prevents the default and sends as the button does; any other key does nothing |
| MessageBubble.CloseAt | src/components/chatbot/MessageBubble.tsx:97 | the lazy group ends at the first closing delimiter, provided no line terminator comes first |
| MessageBubble.MatchAt | src/components/chatbot/MessageBubble.tsx:97 | a match opens with the delimiter at that position and closes with another |
| MessageBubble.SplitFrom | src/components/chatbot/MessageBubble.tsx:97 | the split loop yields an odd number of pieces |
| MessageBubble.SplitDelimited | src/components/chatbot/MessageBubble.tsx:97 | the split yields an odd number of pieces |
| MessageBubble.JoinWithPrefix | src/components/chatbot/MessageBubble.tsx:97 | joining two leading pieces puts the delimiter between each |
| MessageBubble.SplitFromRejoins | src/components/chatbot/MessageBubble.tsx:97 | putting the delimiters back between the pieces from a position gives the rest of the line |
| MessageBubble.RejoinAroundMatch | src/components/chatbot/MessageBubble.tsx:97 | one match step of the rejoin |
| MessageBubble.SliceAroundMatch | src/components/chatbot/MessageBubble.tsx:97 | a line is the text before a match, the delimiter, the body, the delimiter and the rest |
| MessageBubble.SplitRejoins | src/components/chatbot/MessageBubble.tsx:97 | the split loses nothing: rejoining with the delimiter gives the line |
| MessageBubble.SplitFromWithoutDelimiter | src/components/chatbot/MessageBubble.tsx:96-97 | with no delimiter ahead, the rest is one piece |
| MessageBubble.SplitWithoutDelimiter | src/components/chatbot/MessageBubble.tsx:96-97 | a line without the delimiter splits into itself |
| MessageBubble.NoDelimiterBeforeClose | src/components/chatbot/MessageBubble.tsx:97 | no delimiter starts inside a lazy body |
| MessageBubble.NoTerminatorBeforeClose | src/components/chatbot/MessageBubble.tsx:97 | no line terminator lies inside a lazy body |
| MessageBubble.BodyIsCaptured | src/components/chatbot/MessageBubble.tsx:97 | the body of a lazy match holds neither the delimiter nor a line terminator |
| MessageBubble.OddPiecesAfterPair | src/components/chatbot/MessageBubble.tsx:97 | a leading piece and a captured body in front keep every odd piece captured |
| MessageBubble.CapturesAroundMatch | src/components/chatbot/MessageBubble.tsx:97 | one match step keeps every odd piece captured |
| MessageBubble.SplitFromCaptures | src/components/chatbot/MessageBubble.tsx:97 | every odd piece of the split loop is a captured body |
| MessageBubble.SplitCaptures | src/components/chatbot/MessageBubble.tsx:97 | the pieces of the split at odd positions are the captured groups: no delimiter and no line terminator inside |
| MessageBubble.Styled | src/components/chatbot/MessageBubble.tsx:98-100 | even pieces stay plain and odd pieces are styled, position by position |
| MessageBubble.RenderLine | src/components/chatbot/MessageBubble.tsx:91-133 | a list item iff the trimmed line starts with `- ` or digits and `.`; bold splitting when `**` occurs; code splitting only for paragraphs still plain text; an empty paragraph shows a no-break space |
| MessageBubble.BoldOrCodeNeverBoth | src/components/chatbot/MessageBubble.tsx:96-127 | a line's pieces are never both bold and code |
| MessageBubble.EmptyLineIsNoBreakSpace | src/components/chatbot/MessageBubble.tsx:131 | an empty line is shown as a no-break space |
| MessageBubble.RenderContent | src/components/chatbot/MessageBubble.tsx:85-137 | one block per `\n`-separated line, in order |
| MessageBubble.BlockPerLine | src/components/chatbot/MessageBubble.tsx:87-91 | there are as many blocks as line breaks plus one |
| MessageBubble.Bubble | src/components/chatbot/MessageBubble.tsx:60-64 | a user's message is shown verbatim; an assistant's goes through the formatter |

## Left out

- The network, `fetch`, the chat service's client and the base URL from the environment. Each call's outcome is an input: a `Response`, or a `Result` for the chat service and the dashboard's task calls.
- Base64 and JSON parsing of a token segment. These are the `SegmentDecoder` parameter.
- JSON numbers are integers. Floating point, `Infinity` and the exact `ToNumber` rules for whitespace-padded, signed, hexadecimal or exponent strings are not modelled; such strings coerce to NaN.
- `Json.StringToNumberOfRendering` covers only strings of decimal digits.
- String lengths count code points, not UTF-16 units. This matters for the password's 8-character rule on characters outside the Basic Multilingual Plane.
- Concurrency is left out. React's batching of updates is not modelled. Neither are the stale closures over `state.conversationId` in `sendMessage` and over `tasks` in the dashboard handlers: each handler reads the state as it is when it settles. A toggle that races another update is not modelled. Runs of chat updates that interleave are covered by `Chat.Run`.
- The redirect to the sign-in page is modelled only as a change to the location field.
- The page navigation itself, and the router, are left out. The sign-up page records the route it pushes.
- `confirm()` is an input (`confirmed`).
- The 500 ms `setTimeout` that removes the transition class is the separate step `ThemeProvider.Provider.FinishTransition`.
- Textarea auto-resize and focus handling are left out.
- `console.error` logging is left out.
- Time formatting with `Intl` is left out.
- Rendering of JSX beyond the block structure of a message is left out.
- A thrown value that is not an object is not modelled. Error values are either `Error` objects with a message or other objects.
- The text of errors raised by the JavaScript engine itself is an input (`engineMessage`), for example a `TypeError` from reading a property of null.
- `Dashboard.DashboardPage.LoadTasks` takes decoded `Task` lists. The dashboard's handlers likewise take decoded `Task` values. The source casts the reply without checking it.
- The unused `userId` argument of the task calls is accepted and ignored.
- The modal open and close buttons, and the form field setters bound in JSX, are plain field writes. They are not modelled as separate operations.
- `apiGet`, `apiPost`, `apiPut`, `apiPatch` and `apiDelete` are modelled as one method, `Api.ApiRequest`, with the verb as a parameter. `markTaskComplete` and `markTaskIncomplete` are `TaskApi.MarkTask` with the flag as a parameter.
- `ThemeProvider.Provider.SetTheme`: requires a `window`. The source touches `document` unguarded there, so without a window it throws. The same holds for `ToggleTheme` and `SystemPreferenceChanged`.
- `useAuth`, which only throws outside a provider, is left out.
- The theme context value is left out.
- `AuthContext.AuthProvider.Logout`: the source calls `signout` without awaiting it, so `logout` returns before the token is removed and before any redirect, and a rejection of that promise goes unhandled. The model runs the sign-out to completion inside `Logout`; the window in which the user is cleared but the token is still stored is not modelled.
- `Text.Trim`: its own contract states only that no whitespace is left at either end; that only whitespace was cut is stated separately in `Text.TrimCutsOnlyWhitespace`.
- `Text.TrimStart`: its suffix property is stated separately in `Text.TrimStartIsSuffix`, not in its own contract. `Text.TrimEnd` is treated the same way, with `Text.TrimEndIsPrefix`.
