# Portfolio chat widgets and assistant briefing, in Dafny

The site is a one-page CV with a chat widget that answers visitors' questions
through a hosted language model, briefed with the CV data. This project models
the parts of it that have behaviour:

- **The briefing text** (`aiSystemInstruction` in data.ts, `cvDataString` and
  the session's system instruction in index.tsx). Each experience, education
  and project record goes through a fixed template. Records are joined with
  `"; "` and skills with `", "`. The result sits between a fixed preamble and
  a fixed closing line. Modules `Text` (JavaScript `join` and `trim`),
  `Portfolio` (data.ts) and `CvText` (the pure parts of index.tsx, including
  the Education section's `degree | period` line).
- **The streaming chat** (`AIChat` in index.tsx), module `StreamingChat`.
  Its state is the message log, `isLoading`, the input text and whether the
  chat session exists. Each running `handleSendMessage` call also keeps its
  own `modelResponse` and first-chunk flag. Network events become inputs:
  a chunk arrives, the stream ends, or the call throws. The pure transition
  functions (`OnSubmit`, `OnChunk`, …) are the specification. The class
  `AIChat` has one method per event, each proved to produce exactly the
  state its transition function gives.
- **The proxied chat** (js/main.js), module `ProxiedChat`. It keeps an
  append-only `messages` array and the `disabled` flags of the input and the
  button. A submit posts the trimmed text and the earlier log. Its outcome
  (an HTTP response with its `ok` flag, or a thrown error) is an event input.
  The class `ChatWidget` is proved against the transition functions.

The model follows the code as written:

- index.tsx drops `isLoading` at the first chunk, not at the end of the
  stream. So a second submit is accepted while a reply is still streaming
  (see Findings).
- On an error, index.tsx appends the apology after a partial reply. It does
  not replace it.
- Both widgets give the assistant's messages the role `'model'`.

## Model

| member | source | states |
|---|---|---|
| `Text.Join` | data.ts:82-85 | `join` of n parts has the total length of the parts plus n − 1 separators; no parts give the empty string |
| `Text.JoinAt` | data.ts:82-85 | part i appears unchanged at its offset, and exactly one separator follows it when another part follows: source order, separators only between neighbours |
| `Text.Trim` | js/main.js:89-90 | `trim()` is empty exactly when the input is all whitespace (the blank-input guard of both widgets); otherwise it neither starts nor ends with whitespace |
| `Text.TrimIsMiddleSlice` | js/main.js:89 | `trim()` returns the slice of its input that starts where the leading whitespace ends, unchanged, and only whitespace lies before and after that slice |
| `Portfolio.ExperienceLine` | data.ts:83 | the experience template "role at company (period): description"; `ExperienceAt` states where each entry lands in the instruction |
| `Portfolio.EducationLine` | data.ts:84 | the education template "degree from institution (period)", parentheses kept for an empty period; `EducationAt` states where each entry lands |
| `Portfolio.ProjectLine` | data.ts:85 | the project template "name: result", which leaves out the description and skills; `ProjectAt` states where each entry lands |
| `Portfolio.SystemInstruction` | data.ts:77-86 | the instruction template; what it contains is stated by `InstructionIsIndentedBriefing`, `InstructionFraming`, the `…At` lemmas and `InstructionIgnoresUnrenderedFields` |
| `Portfolio.InstructionFraming` | data.ts:77-86 | the instruction starts with the fixed "You are a professional AI assistant…" preamble and ends with the fixed "Be friendly and concise…" line, for any portfolio |
| `Portfolio.InstructionIsIndentedBriefing` | data.ts:77-86 | the instruction is the preamble, then the eight labelled lines (Name … Projects) in order, each on its own line indented by four spaces, then the closing line |
| `Portfolio.SkillAt` | data.ts:82 | skills appear in source order separated by ", "; a single skill is the whole segment |
| `Portfolio.ExperienceAt` | data.ts:83 | entry i reads "role at company (period): description" at its place, followed by "; " when another entry follows |
| `Portfolio.EducationAt` | data.ts:84 | entry i reads "degree from institution (period)" at its place, followed by "; " when another follows; an empty period still gives "()" |
| `Portfolio.ProjectAt` | data.ts:85 | project i reads "name: result" at its place, followed by "; " when another follows |
| `Portfolio.InstructionIgnoresUnrenderedFields` | data.ts:77-86 | portfolios that differ only in project descriptions, project skills, image or contact give the same instruction: those fields never reach it |
| `CvText.CvDataString` | index.tsx:122-131 | the `cvDataString` template; its contents are stated by `CvDataIsIndentedBriefing` and `BriefingsAgree` |
| `CvText.DirectSystemInstruction` | index.tsx:138 | the session's instruction template: the preamble, a space, `cvDataString`, ". " and the closing line; `BriefingsAgree` states that its block is the same briefing lines as data.ts's |
| `CvText.CvDataIsIndentedBriefing` | index.tsx:122-131 | `cvDataString` is the same eight lines in the same order, indented by eight spaces, followed by a four-space line |
| `CvText.BriefingsAgree` | index.tsx:122-138 | data.ts's instruction and index.tsx's `cvDataString` and session instruction render the same line list; they differ only in indentation and in the text around the block |
| `CvText.EducationDisplay` | index.tsx:394 | the Education line starts with the degree; it is the degree alone exactly when the period is empty, and otherwise continues with " \| " and the period |
| `CvText.EducationFormsDiffer` | index.tsx:394 | for an empty period the display line is the bare degree while the briefing still writes "()" |
| `StreamingChat.OnMount` | index.tsx:133-143 | the mount effect creates the session and leaves the log as exactly the one greeting message |
| `StreamingChat.MountShowsGreeting` | index.tsx:142 | after mount the log is one `model` message with the greeting text, and nothing is loading |
| `StreamingChat.Accepts` | index.tsx:154 | the guard of `handleSendMessage`: a non-blank trimmed input, not loading, and a session; `OnSubmit` states that a submit changes the state exactly when it holds |
| `StreamingChat.OnSubmit` | index.tsx:152-160 | the state is unchanged exactly when the trimmed input is empty, `isLoading` is set or there is no session; otherwise one `user` message with the untrimmed input is appended, `isLoading` is set, the input is cleared and a call starts that sends that text |
| `StreamingChat.OnChunk` | index.tsx:164-178 | the first chunk appends one `model` message holding it and drops `isLoading`; a later one keeps the log's length and all but the last message, and sets the last message's text to all chunks so far; the call's running text grows by the chunk |
| `StreamingChat.OnStreamEnd` | index.tsx:183-185 | the end of the stream leaves the log alone, ends the call and drops `isLoading` |
| `StreamingChat.OnError` | index.tsx:180-185 | a failure appends exactly one apology after everything already shown, ends the call and drops `isLoading` |
| `StreamingChat.Step` | index.tsx:152-214 | events as the page delivers them (the input is disabled while loading); once the session exists no event shortens the log or alters any message but the last |
| `StreamingChat.Chunks` | index.tsx:165-179 | a call that keeps receiving chunks stays active and the reachable-state facts hold |
| `StreamingChat.StreamAppendsOneReply` | index.tsx:161-179 | chunks c1..cn with n ≥ 1 on a fresh call grow the log by exactly one `model` message whose text is c1+…+cn and leave `isLoading` down; zero chunks change nothing |
| `StreamingChat.FailureKeepsPartialReply` | index.tsx:165-185 | a failure after chunks c1..cn leaves the partial reply c1+…+cn in place and appends one apology after it; with no chunk only the apology is appended |
| `StreamingChat.SubmitMidStreamOverwritesVisitorTurn` | index.tsx:154-176 | as written: ask "a", chunk "x", ask "b" (accepted: two calls now active), chunk "y" for the first call: the visitor's turn "b" now reads "xy" |
| `StreamingChat.OnSubmitGuarded` | index.tsx:154 | corrected guard: also refuses while an earlier call is still active, and otherwise submits as `OnSubmit` does |
| `StreamingChat.GuardedStepKeepsRepliesOwnLast` | index.tsx:152-185 | with the corrected guard every event keeps at most one call active and keeps the log's last message equal to that call's reply once it has begun |
| `StreamingChat.LaterChunkRewritesOwnReply` | index.tsx:171-177 | when the invariant holds, a later chunk rewrites the call's own `model` message: the log keeps its length and earlier messages, and the last one holds all chunks so far |
| `StreamingChat.AIChat.constructor` | index.tsx:116-119 | the component starts with no session, an empty log, an empty input and `isLoading` false, a consistent state |
| `StreamingChat.AIChat.Mount` | index.tsx:133-143 | the state after the mount effect is `OnMount` of the state before, and it is consistent |
| `StreamingChat.AIChat.Input` | index.tsx:209-211 | typing sets the input unless the input is disabled by `isLoading` |
| `StreamingChat.AIChat.Submit` | index.tsx:152-160 | the new state is `OnSubmit` of the old and stays consistent; it reports whether the guard passed, and the text sent is the untrimmed input |
| `StreamingChat.AIChat.Chunk` | index.tsx:166-177 | one turn of the `for await` loop: the new state is `OnChunk` of the old, the last message being updated in place |
| `StreamingChat.AIChat.ReceiveStream` | index.tsx:165-179 | the `for await` loop over a whole stream yields `Chunks` of the starting state |
| `StreamingChat.AIChat.StreamEnd` | index.tsx:183-185 | the new state is `OnStreamEnd` of the old |
| `StreamingChat.AIChat.Fail` | index.tsx:180-185 | the new state is `OnError` of the old |
| `StreamingChat.AIChat.HandleSendMessage` | index.tsx:152-186 | a whole uninterrupted call: a refused submit changes nothing; an accepted one leaves the visitor's turn, one reply holding all chunks (if any), then the apology if the stream broke off, with `isLoading` down and the input empty |
| `ProxiedChat.OnSubmit` | js/main.js:87-103 | a blank input (after trimming) changes nothing and posts nothing; otherwise one `user` message with the trimmed text is appended, the input is cleared, both controls are disabled, and the posted history equals the log before this turn |
| `ProxiedChat.OnResolve` | js/main.js:114-131 | exactly one `model` message is appended: the returned text for an OK response, the apology for a non-OK status or a thrown error; both controls are enabled again |
| `ProxiedChat.ReplyText` | js/main.js:114-124 | the reply shown: the returned text for an OK response, the apology otherwise; `OnResolve` states that exactly this one message is appended |
| `ProxiedChat.Step` | js/main.js:87-131 | no event removes or changes a message already in the log (the log before is a prefix of the log after) |
| `ProxiedChat.StepKeepsSettled` | js/main.js:93-130 | every event keeps the greeting first, keeps both controls disabled exactly while a request is in flight, and keeps at most one request in flight |
| `ProxiedChat.RunKeepsSettled` | js/main.js:64-131 | from the initial greeting log, every sequence of events keeps the widget settled, and the log always begins with the greeting |
| `ProxiedChat.RunOnlyAppends` | js/main.js:64-124 | the log only grows by appending: any log is a prefix of the log after any further events |
| `ProxiedChat.ExchangeAppendsTurnAndReply` | js/main.js:87-131 | one full exchange appends the trimmed turn and one reply, posts the earlier log as history, disables both controls while waiting, and enables them again after |
| `ProxiedChat.ChatWidget.constructor` | js/main.js:64 | the widget starts with the greeting as its only message and both controls enabled |
| `ProxiedChat.ChatWidget.Input` | js/main.js:97-98 | typing sets the input unless it is disabled |
| `ProxiedChat.ChatWidget.Submit` | js/main.js:87-103 | the new state and the posted request are `OnSubmit` of the old state; the log before is a prefix of the log after |
| `ProxiedChat.ChatWidget.Post` | js/main.js:93-103 | an accepted submit pushes exactly the visitor's turn, clears the input, disables both controls, and posts the turn with the log before it as history |
| `ProxiedChat.ChatWidget.Resolve` | js/main.js:114-131 | the new state is `OnResolve` of the old; the log before is a prefix of the log after |

## Left out

- The model vendor's client (creating the chat session, `sendMessageStream`) and the `fetch` to the site's own endpoint are left out. This includes the endpoint address, the anti-forgery header and the JSON body encoding. They are foreign network calls: their results are event inputs (chunks, stream end, a thrown error, an HTTP outcome).
- `async`/`await` scheduling and React's batching of state updates are left out. Each handler step is one atomic transition. React's development-mode double effects are not modelled.
- Rendering is left out: the JSX components, `renderMessages`, `showTypingIndicator`, scrolling, `focus()` and `console.error`.
- The scroll-reveal observers, the scrolled header and the hamburger menu are left out. They are UI driven by browser APIs.
- The literal biographical values are left out. The formatter is modelled over arbitrary records.
- The footer's current year and the API key from the environment are left out.
- A chunk whose `text` is missing is left out. In index.tsx, `modelResponse += chunk.text` would then add the string "undefined" to the reply. The model takes every chunk to be a string.
- A response body whose `text` is missing is left out. In js/main.js the message would be stored with an undefined text: the page shows it as empty, and `JSON.stringify` drops the key from later `history` entries. The model takes every reply text to be a string.
- Lone UTF-16 surrogates are left out: strings are sequences of Unicode scalar values, not UTF-16 code units.
- A second run of the mount effect is left out: the effect runs once, and a second delivery of the mount event changes nothing.

## Findings

| source | as written | input that shows it | evidently intended | confidence | as-written member | corrected member |
|---|---|---|---|---|---|---|
| index.tsx:167 | `isLoading` drops at the first chunk. This also re-enables the input and the button, so a second submit is accepted while the first reply is still streaming. The first call's later chunks then overwrite the text of the last message, which is now the visitor's new turn. | ask "a", receive "x", ask "b", receive "y" for the first call: the `user` message "b" reads "xy" | submits are refused until the running call has finished, so at most one request is in flight and a later chunk only rewrites its own reply | medium, not executed | `StreamingChat.SubmitMidStreamOverwritesVisitorTurn` | `StreamingChat.OnSubmitGuarded` |

The corrected guard is used by `StreamingChat.StepGuarded` and the invariant
`GuardedStepKeepsRepliesOwnLast`. The class `AIChat` keeps the guard as
written, because it models the page as it behaves.
