# Chat and sign-in state of the RAG front end, in Dafny

This project models the two pieces of client state of a browser front end for a
retrieval-augmented chat service.

- The **chat store** (`useChatStore`) holds an append-only message log, an
  `isTyping` flag and the selected knowledge-base folder. The folder is also
  written through to `sessionStorage` under the key `selectedFolder`.
- The **sign-in submit handler** (`handleSubmit` of the `Login` component)
  does the following:
  - validates the form;
  - posts the credentials to `/api/auth/login`;
  - fetches the profile from `/api/auth/me` with the returned bearer token;
  - records the identity and token in the auth store;
  - navigates to `/chat`.

  Every failure along the way is caught and shown as an error message, and
  the loading flag is reset in all cases.

## Layout

| file | module | contents |
|---|---|---|
| `js.dfy` | `Js` | JavaScript value semantics the code relies on: JSON fields that may be `undefined`, `null`, a string or another value, truthiness and `\|\|`, string conversion, thrown values, settled outcomes |
| `chat.dfy` | `Chat` | the chat store: messages, state, `sessionStorage`, and the three actions as pure transitions |
| `chat_history.dfy` | `ChatHistory` | frame, commutation and ordering lemmas, plus the replay of any sequence of store actions |
| `login.dfy` | `Login` | `handleSubmit` as the sequence of effects it performs, over abstract outcomes of its external steps |
| `login_screen.dfy` | `LoginScreen` | what those effects do to the component state, the auth store, the router and the sent requests |
| `login_properties.dfy` | `LoginProperties` | what one submission does, for every combination of outcomes |

### Chat store

The store is an immutable record, and each action is a function from the old
record to the new one. The random message id and the `Date` timestamp are
parameters, and so is the behaviour of `sessionStorage.setItem`: it either
stores the value or throws. A message's role is the two-valued datatype
`Chat.Role` (`User` or `Assistant`), so no other role can be logged.

### Submit handler

`Login.HandleSubmit` maps the settled outcomes of five external steps to the
list of effects the handler performs, in program order. The five steps are:

- the schema validation;
- the sign-in `fetch`;
- its `json()`;
- the profile `fetch`;
- its `json()`.

An effect is one of: `preventDefault`, `setError`, `setIsLoading`, a request
sent, `setAuth` or `navigate`. `LoginScreen.Run` replays the effects on a screen record.
`LoginScreen.RunSummary` proves that every field ends at the last value written
to it. The properties in `LoginProperties` hold for every outcome combination
and every starting screen.

## Model

| member | source | states |
|---|---|---|
| Chat.Initial | src/store/chat.ts:19-22 | The store starts with an empty log, `isTyping` false and folder `"itg"`. |
| Chat.AddMessage | src/store/chat.ts:23-33 | The log grows by exactly one. The old log is an unchanged prefix. The new last message has the given content and role plus the supplied id and timestamp. `isTyping` and the folder are unchanged. |
| Chat.SetTyping | src/store/chat.ts:34 | `isTyping` becomes the given value. The log and the folder are unchanged. |
| Chat.SetSelectedFolder | src/store/chat.ts:35-38 | After a successful storage write, storage holds the folder under `selectedFolder` and the store holds it in memory. A throwing write escapes with nothing changed, so the in-memory folder keeps its old value. The log and the typing flag are never touched. |
| ChatHistory.SetTypingLastWriteWins | src/store/chat.ts:34 | Setting the flag twice equals setting it once to the second value, so the action is idempotent. |
| ChatHistory.AddMessageCommutesWithSetTyping | src/store/chat.ts:23-34 | Appending a message and setting the typing flag commute. |
| ChatHistory.SetSelectedFolderPersists | src/store/chat.ts:35-38 | A successful folder change makes the storage and the store agree. A failed one keeps their agreement exactly as it was. |
| ChatHistory.AddMessageChronological | src/store/chat.ts:27-30 | The log stays in timestamp order if and only if it was in order before and the supplied timestamp is no older than the last message's. The store itself does not enforce this. |
| ChatHistory.AddMessageDistinctIds | src/store/chat.ts:27-30 | Message ids stay pairwise distinct if and only if they were distinct before and the supplied id is new. Uniqueness depends only on the id source. |
| ChatHistory.ReplayAppendsDrafts | src/store/chat.ts:23-38 | After any sequence of store actions, the old log is a prefix of the new one. The log grows by the number of `addMessage` calls. The added role/content pairs are those calls' arguments, in call order. |
| ChatHistory.ReplayLastWrites | src/store/chat.ts:34-38 | After any sequence of actions, `isTyping` is the last value set. The folder is the last one whose storage write succeeded, or the starting folder if there was none. |
| ChatHistory.ReplayKeepsFolderPersisted | src/store/chat.ts:35-38 | Once storage and store agree on the folder, they keep agreeing through any sequence of actions. Any sequence containing a successful folder change ends with them agreeing. |
| LoginScreen.RunSummary | src/components/login.tsx:10-52 | Replaying effects appends exactly the requests sent by the two `fetch` calls (lines 34 and 52). The `error` and `isLoading` state, the session that `setAuth` records and the location that `navigate` sets each end at the last value written to them, or stay as they were. |
| LoginProperties.TryBlockStages | src/components/login.tsx:24-75 | The `try` block performs the effects of exactly the stages it reaches. It runs to its end (nothing thrown) if and only if every step succeeds. |
| LoginProperties.TryBlockSummary | src/components/login.tsx:24-75 | The `try` block sends the sign-in request once validation passes, and the profile request only after an ok, readable sign-in response. It records a session and navigates if and only if every step succeeds. |
| LoginProperties.HandleSubmitPassesThrough | src/components/login.tsx:20-85 | The code around the `try` block sends no requests, records no session and does not navigate. |
| LoginProperties.HandleSubmitErrors | src/components/login.tsx:20-85 | The error is written as `null` first. It is written again, with the caught value's text, only when the `try` block stops early. |
| LoginProperties.HandleSubmitLoading | src/components/login.tsx:24-84 | Loading is switched on at the start of the `try` block and off in `finally`, and nowhere else. |
| LoginProperties.HandleSubmitBrackets | src/components/login.tsx:20-85 | The handler's first effect cancels the browser's own form submission and its second clears the error. Its last effect switches loading off. |
| LoginProperties.ValidationFailureStopsEverything | src/components/login.tsx:24-34 | When validation fails, no request is sent, `setAuth` is not called and there is no navigation. Only the error and the loading flag change. |
| LoginProperties.SignedInExactlyOnFullSuccess | src/components/login.tsx:42-75 | `setAuth` and navigation to `/chat` happen, each at most once, if and only if the sign-in and profile responses are both ok and readable. Otherwise the session and the location are left unchanged. |
| LoginProperties.StoredSessionComesFromResponses | src/components/login.tsx:49-72 | On success the stored identity is built from the profile: `id` is the profile id; `email` is the profile email, or `username` when the email is falsy (missing, `null` or empty); `name` is `username`. The stored token is the sign-in `access_token`, the same token sent as the bearer credential to `/me`. The error stays cleared. |
| LoginProperties.RejectedSignInReportsDetail | src/components/login.tsx:42-46 | A non-ok sign-in response shows the body's `detail`, converted to a string, when it is truthy. Otherwise (`detail` missing, `null`, `0`, `false` or empty) it shows `Login failed: <statusText>`, also when the body is unreadable. No profile request follows and the session is untouched. |
| LoginProperties.RejectedProfileReportsFailure | src/components/login.tsx:52-60 | A non-ok profile response shows `Failed to get user information`. Both requests were sent, and the session and location are untouched. |
| LoginProperties.RejectionShowsItsMessage | src/components/login.tsx:76-81 | When a reached step throws an `Error`, its message is shown. When it throws any other value, `An unexpected error occurred` is shown. The session is untouched either way. |
| LoginProperties.ErrorSetAtMostOnceAndLoadingEnds | src/components/login.tsx:20-85 | On every path the error is cleared first and set at most once more, exactly when the attempt fails. Loading goes on and then off, and the screen ends not loading. The final error is absent if and only if the sign-in succeeded. |
| LoginProperties.RequestsFollowTheFlow | src/components/login.tsx:29-56 | The handler sends no request for an invalid form. It sends only the sign-in request until an ok, readable token body arrives, then also the profile request. The sign-in request is a POST carrying the email as form field `username` and the password as `password`. The profile request is a GET carrying `Bearer <access_token>`. |

## Behaviour worth knowing

- `setSelectedFolder` writes to `sessionStorage` before it updates the store.
  If the write throws, the exception escapes and the in-memory folder keeps its
  old value.
- Creating the store does not read `sessionStorage`: the folder always starts
  as `"itg"`.
- The code does not make message ids unique or timestamps non-decreasing. Ids
  come from `Math.random` and timestamps from `new Date()`. The model takes both
  as inputs. The lemmas state exactly when each property is kept, not that it
  always holds.
- When the profile request fails, the token is simply not stored. No session is
  recorded, so no half-authenticated state arises.

## Left out

- Rendering: the JSX of `Login` (src/components/login.tsx:87-180), the form
  `onChange` handlers and the `remember` checkbox have no logic to verify.
- `fetch`, HTTP and JSON parsing are outcome inputs (`Js.Outcome`), not modelled
  behaviour.
- A JSON value other than a string or `null` (a number, a boolean, an array or
  an object) is abstracted to its truthiness and its string conversion
  (`Js.Other`). The `||` tests and the error message and bearer header depend
  only on those two. But `setAuth` receives the profile's `id`, `email` and
  `username` whole (src/components/login.tsx:65-72). There, distinct values
  with the same conversion, such as `1` and `[1]`, are not told apart.
- A `null` body is not modelled. On a rejected sign-in
  (src/components/login.tsx:44-45), reading `detail` from it throws a
  `TypeError`, whose message is shown instead of `Login failed: …`. On the
  success path, the `TypeError` from reading `access_token` or `id` of a `null`
  body gives the same trace as that `json()` call rejecting with an `Error`,
  which the model covers. Any other non-object body reads every field the code
  uses as `undefined`, like `{}`.
- `loginSchema` (in `@/lib/auth`) is not part of this model. Its verdict is an
  input: credentials, or the value it throws.
- `useAuthStore` and `setAuth` (in `@/lib/store`) are not part of this model.
  `setAuth` records the identity/token pair and replaces any earlier one. Both
  `setAuth` and `navigate` are taken not to throw, since their code is not
  available.
- zustand's `create`/`set` and React's `useState` are not modelled. State
  updates apply in program order, and React batching does not change the final
  values.
- `Math.random` id generation and `new Date()` become caller-supplied inputs.
- src/App.tsx holds a stub sign-in (a timer, then an unconditional
  `setIsAuthenticated(true)`) and conditional rendering, with nothing to verify.
- tailwind.config.js is declarative styling.
- One submission is modelled as if it ran to its end without interruption. The
  handler awaits at src/components/login.tsx:34, 44, 49, 52 and 62, where a
  second submission or an unmount of the component could interleave. Their
  interleavings are not modelled.
