# Floating assistant and page navigation — a Dafny model

This project models the logic of a small React site about the working class and the Điện
Biên Phủ campaign. It covers three components:

- **The floating chat assistant** (`src/component/ChatbotAI.jsx`).
  - The icon's scroll listener pins the icon either at the top anchor (`top: 70vh`) or at
    the bottom anchor (`bottom: 2rem`).
  - The chat window's form trims the input and ignores blank input. It also offers four
    predefined questions while the transcript is empty.
  - The controller `FloatingAssistantChatbot` owns four pieces of state: `isOpen`,
    `messages`, `isLoading` and the remote chat session `chat`. It sends messages, shows a
    fixed apology when a send fails, and starts a new session when the window is closed.
- **The storytelling page** (`src/component/Storytelling.jsx`). Its scroll listener marks
  as current the first section, in page order, whose top edge lies in the upper half of
  the window. If no section qualifies, the current section stays as it was.
- **The historical-mission page** (`src/component/Content01.jsx`).
  - The table of contents turns a heading into an element id with
    `title.toLowerCase().replace(/\s+/g, "-")` and scrolls to that element if it exists.
  - A menu button shows and hides the table of contents.

The model is written in the source's own form:

- Components whose handlers update state are classes with `modifies` clauses:
  - `FloatingAssistant`, `FloatingAssistantChatbot` and `ChatWindow`;
  - `StorytellingPage`;
  - `HistoricalMissionPage`.
- The pure decisions are functions with lemmas about them: the anchor rule, the trim guard,
  the first-match picker and the slug.
- The storytelling listener's `for … break` loop is a `while` loop with invariants. It is
  proved against the function `FirstInView`.

Modelling choices:

- **Remote model.** The Gemini SDK is not modelled. A session handle is a number, and each
  `initChat` hands out a fresh one from a counter. The remote call's result is an `Outcome`
  passed in by the caller: `Reply(text)`, or `Fail` for anything that throws.
- **Atomic sends.** A send is one atomic step. The ghost field `loadingWrites` records the
  values written to `isLoading`, and the ghost field `requests` records the messages sent
  to the remote model.
- **The page's headings and ids.** They are written word by word as concatenations. The
  characters are those in the page source.

## Model

| member | source | states |
|---|---|---|
| Whitespace.TrimStart | src/component/ChatbotAI.jsx:84-85 | the result is a suffix of the input with only whitespace removed before it, and it does not start with whitespace |
| Whitespace.TrimEnd | src/component/ChatbotAI.jsx:84-85 | the result is a prefix of the input with only whitespace removed after it, and it does not end with whitespace |
| Whitespace.Trim | src/component/ChatbotAI.jsx:84-85 | neither end of the trimmed text is whitespace |
| Whitespace.TrimParts | src/component/ChatbotAI.jsx:84-85 | the trimmed text is a contiguous piece of the input with only whitespace before it and only whitespace after it |
| Whitespace.TrimEmptyIffAllSpace | src/component/ChatbotAI.jsx:84 | `input.trim()` is empty exactly when the input is all whitespace, so that is when the guard returns |
| Whitespace.TrimIdempotent | src/component/ChatbotAI.jsx:84-85 | trimming twice gives the same result as trimming once |
| Whitespace.TrimOfTrimmed | src/component/ChatbotAI.jsx:84-85 | a string with non-whitespace at both ends is its own trim |
| ChatbotAI.MaxScroll | src/component/ChatbotAI.jsx:28-29 | at offset `maxScroll` the window's bottom edge is exactly the icon's height above the end of the page; that this offset is the boundary between the two anchors is proved by `AnchorTieIsTop` (the top anchor at it, the bottom one a pixel past it) and `AnchorMonotone` (the bottom anchor for every larger offset) |
| ChatbotAI.AnchorFor | src/component/ChatbotAI.jsx:28-35 | the icon goes to the bottom anchor iff `scrollY > scrollHeight - innerHeight - containerHeight`, and to the top anchor otherwise |
| ChatbotAI.AnchorMonotone | src/component/ChatbotAI.jsx:28-35 | once the icon is at the bottom anchor, scrolling further down keeps it there |
| ChatbotAI.AnchorTieIsTop | src/component/ChatbotAI.jsx:31 | the comparison is strict: at exactly `maxScroll` the icon is at the top anchor, and one pixel further it is at the bottom |
| ChatbotAI.AnchorExample | src/component/ChatbotAI.jsx:28-35 | with 3000/800/120, `maxScroll` is 2080; scrolls 2000 and 2080 give the top anchor and 2100 gives the bottom |
| ChatbotAI.FloatingAssistant.constructor | src/component/ChatbotAI.jsx:19 | the icon starts at the top anchor |
| ChatbotAI.FloatingAssistant.HandleScroll | src/component/ChatbotAI.jsx:22-36 | an unmounted icon keeps its anchor; otherwise the anchor becomes `AnchorFor` of the scroll state |
| ChatbotAI.Exchange | src/component/ChatbotAI.jsx:270-291 | a send appends two messages with a session and one without; with a session the first is the user's text; the last is always an assistant message, holding the remote reply if the call succeeded and the apology otherwise |
| ChatbotAI.ExchangeCounts | src/component/ChatbotAI.jsx:270-291 | one send adds exactly one assistant message; it adds the user's text if a session exists and no user message if not |
| ChatbotAI.ExchangeEffect | src/component/ChatbotAI.jsx:274-291 | after a send, the earlier messages are unchanged and in order; the user texts grow by the sent text exactly when there is a session; the assistant messages grow by one |
| ChatbotAI.ExchangeAnswered | src/component/ChatbotAI.jsx:274-291 | if every user message was followed at once by an assistant message before a send, this still holds after it |
| ChatbotAI.ExchangeRepliesFrom | src/component/ChatbotAI.jsx:279-291 | the assistant's messages are only the remote replies or the fixed apology, never the raw error |
| ChatbotAI.Conversation | src/component/ChatbotAI.jsx:267-295 | n sends in a row leave 2n messages with a session and n without, and the last message after any send is an assistant message |
| ChatbotAI.ConversationUserTexts | src/component/ChatbotAI.jsx:274 | with a session, the user messages of n sends are the sent texts, in the order sent |
| ChatbotAI.ConversationReplies | src/component/ChatbotAI.jsx:279-291 | every send adds exactly one assistant message, with a session or without |
| ChatbotAI.ConversationAnswered | src/component/ChatbotAI.jsx:274-291 | after any sequence of sends, every user message is followed at once by an assistant message |
| ChatbotAI.ConversationTurn | src/component/ChatbotAI.jsx:267-295 | send i's messages sit at their own place in the transcript, in call order: with a session, that send's user message at 2i and its reply or apology at 2i + 1; without one, its apology at i |
| ChatbotAI.SessionTurn | src/component/ChatbotAI.jsx:274-291 | with a session, the messages at 2i and 2i + 1 are the two messages that send i appended (by induction on the sends) |
| ChatbotAI.EarlierSessionTurn | src/component/ChatbotAI.jsx:274-291 | a send's two messages keep their positions when later sends append to the transcript |
| ChatbotAI.LastSessionTurn | src/component/ChatbotAI.jsx:274-291 | the last send's two messages are the last two of the transcript |
| ChatbotAI.ConversationWithSession | src/component/ChatbotAI.jsx:267-295 | with a session, n sends give 2n messages: the user texts in the order sent, each answered at once, n assistant messages, and for every i the user message of send i at 2i followed by the reply to `outcomes[i]` (or the apology if it failed) at 2i + 1 |
| ChatbotAI.ConversationWithoutSession | src/component/ChatbotAI.jsx:270-274 | without a session, every message that n sends leave is the apology (n of them, by `Conversation`), so no user message is shown |
| ChatbotAI.FloatingAssistantChatbot.constructor | src/component/ChatbotAI.jsx:245-248 | first render: the window is closed, the transcript is empty, nothing is loading and there is no session |
| ChatbotAI.FloatingAssistantChatbot.Mount | src/component/ChatbotAI.jsx:250-252 | the mount effect: from the first render's state without a session, a session is created that no request has used, and the window, the transcript and the loading flag are left as they were |
| ChatbotAI.MountedChatbot | src/component/ChatbotAI.jsx:245-252 | the mounted component: the window closed, the transcript empty, nothing loading, and a session already created eagerly, with the invariant `Valid` holding |
| ChatbotAI.FloatingAssistantChatbot.InitChat | src/component/ChatbotAI.jsx:250-265 | installs a fresh session handle (as `startChat({ history: [] })` gives): it differs from the previous one and from the session of every request ever sent, and nothing else changes |
| ChatbotAI.FloatingAssistantChatbot.Open | src/component/ChatbotAI.jsx:305 | opens the window, keeps the controller's invariant `Valid` (every user message answered at once; the current session and every request's session are handles already issued), and leaves the transcript, the loading flag and the session unchanged |
| ChatbotAI.FloatingAssistantChatbot.Close | src/component/ChatbotAI.jsx:297-301 | closes the window, empties the transcript and installs a fresh session, one that differs from the old one and that no earlier request was sent on; the loading flag is left as it is |
| ChatbotAI.FloatingAssistantChatbot.SendMessage | src/component/ChatbotAI.jsx:267-295 | see the notes below the table |
| ChatbotAI.SubmittedText | src/component/ChatbotAI.jsx:84-85 | blank input sends nothing, and that happens exactly when the input is all whitespace; otherwise the trimmed input is sent, which is non-empty and has no whitespace at either end |
| ChatbotAI.SubmittedTextStable | src/component/ChatbotAI.jsx:84-85 | re-submitting a sent text sends it unchanged |
| ChatbotAI.SubmitsUnchanged | src/component/ChatbotAI.jsx:84-85 | a text with non-whitespace at both ends is submitted exactly as it is |
| ChatbotAI.PredefinedPromptSubmitsUnchanged | src/component/ChatbotAI.jsx:9-14 | typing any of the four predefined prompts and submitting sends the prompt unchanged, just as choosing it does |
| ChatbotAI.ChatWindow.constructor | src/component/ChatbotAI.jsx:80 | the text field starts empty |
| ChatbotAI.ChatWindow.Type | src/component/ChatbotAI.jsx:222 | the text field holds what was typed |
| ChatbotAI.ChatWindow.HandleSubmit | src/component/ChatbotAI.jsx:82-87 | blank input changes nothing and sends nothing; otherwise exactly the trimmed text is sent through `SendMessage` (its transcript, loading log and request effects) and the field is cleared; the window and the session are unchanged either way |
| ChatbotAI.ChatWindow.PressSend | src/component/ChatbotAI.jsx:226-234 | while a reply is loading the disabled button sends nothing and changes nothing; otherwise its whole effect is that of `HandleSubmit`: the same text sent, the same transcript, field, loading log and requests, and the window and session unchanged |
| ChatbotAI.ChatWindow.HandlePredefinedPrompt | src/component/ChatbotAI.jsx:89-91 | the chosen prompt is sent as it is, untrimmed, and that is what the form would send for it; the transcript, loading log and requests change as `HandleSubmit` states for that text, and the window and session are unchanged; the button exists only while the transcript is empty (lines 121-146) |
| Storytelling.InView | src/component/Storytelling.jsx:171-173 | a section counts only if its element exists and its top lies between 0 and half the window height, both inclusive, with the half rounded down for whole-pixel tops |
| Storytelling.FirstInView | src/component/Storytelling.jsx:169-178 | the result is the earliest section in view, and no earlier section is in view; it is None exactly when no section is in view |
| Storytelling.FirstInViewIsEarliest | src/component/Storytelling.jsx:169-176 | any section that is in view with no section in view before it is the result |
| Storytelling.InViewBounds | src/component/Storytelling.jsx:173 | both bounds are inclusive: tops 0 and `innerHeight / 2` qualify; a negative top and a missing element do not |
| Storytelling.MissingSectionSkipped | src/component/Storytelling.jsx:170-171 | a section whose element is missing is skipped, and the search continues with the next section |
| Storytelling.StorytellingPage.constructor | src/component/Storytelling.jsx:156 | the current section starts as "hero" |
| Storytelling.StorytellingPage.HandleScroll | src/component/Storytelling.jsx:159-178 | the current section becomes the first section in view, or stays unchanged when none is; it is always one of the six ids or the previous value |
| Content01.Slug | src/component/Content01.jsx:86 | the id contains no whitespace, and apart from whitespace and hyphens it holds the lower-cased heading's characters in order |
| Content01.ToLowerCase | src/component/Content01.jsx:86 | same length as the input; each character is lower-cased, ASCII letters only |
| Content01.HyphenateSpaces | src/component/Content01.jsx:86 | the result contains no whitespace character |
| Content01.HyphenateSpacesCounts | src/component/Content01.jsx:86 | non-whitespace characters are kept in order; each maximal whitespace run becomes exactly one hyphen; the length changes accordingly |
| Content01.HyphenateNoSpace | src/component/Content01.jsx:86 | a string without whitespace is left unchanged |
| Content01.HyphenateSpacesIdempotent | src/component/Content01.jsx:86 | applying the replacement to its own result changes nothing |
| Content01.SlugOfWords | src/component/Content01.jsx:86 | the slug of `word + " " + rest` is the lower-cased word, then a hyphen, then the slug of the rest |
| Content01.SlugHead | src/component/Content01.jsx:86 | a slug starts with the title's first character, lower-cased |
| Content01.ElementById | src/component/Content01.jsx:85-87 | returns a section only if that section's id is the requested id; returns none only if no section has that id |
| Content01.Navigate | src/component/Content01.jsx:84-91 | scrolls to the section whose id is the title's slug; does nothing when no element has that id |
| Content01.SlugOfTitleI | src/component/Content01.jsx:8 | the slug of heading I is the id of section I (line 141) |
| Content01.SlugOfTitleII | src/component/Content01.jsx:15 | the slug of heading II is the id of section II (line 194) |
| Content01.SlugOfTitleIII | src/component/Content01.jsx:23 | the slug of heading III is the id of section III (line 275) |
| Content01.SlugOfTitleIV | src/component/Content01.jsx:31 | the slug of heading IV keeps its two commas |
| Content01.HeadingsIToIIIReachTheirSections | src/component/Content01.jsx:84-91 | the buttons of headings I, II and III scroll to sections I, II and III |
| Content01.HeadingIVGoesNowhere | src/component/Content01.jsx:355 | the slug of heading IV is not the id of section IV, nor any other id on the page, so its button does nothing |
| Content01.SubheadingGoesNowhere | src/component/Content01.jsx:10-27 | every sub-heading starts with a digit while every id starts with 'i', so sub-heading buttons do nothing |
| Content01.HistoricalMissionPage.constructor | src/component/Content01.jsx:70 | the table of contents starts hidden |
| Content01.HistoricalMissionPage.ToggleTOC | src/component/Content01.jsx:103 | the menu button flips `showTOC` |
| Content01.ToggleTwice | src/component/Content01.jsx:103 | two presses restore the original value |

`SendMessage` promises the following:

- The loading flag is raised and then cleared.
- With a session, the transcript becomes `old ++ [text, reply]`. If the remote call failed,
  it becomes `old ++ [text, apology]`.
- Without a session, only the apology is appended.
- The request goes to the current session, and the window and session are unchanged.
- Every user message remains followed by an assistant message.

## Left out

- **The Gemini SDK** (`getGenerativeModel`, `startChat`, `chat.sendMessage`,
  `response.text()`). It is remote code. Its result is the `Outcome` parameter, and its
  generation settings and API key are configuration.
- **Error logging.** The `console.error("Error:", error)` in `sendMessage`'s catch block
  (`src/component/ChatbotAI.jsx:284`) is console output and is not modelled. The user sees
  only the apology, and that is modelled.
- **A failure inside `initChat`.** It is not modelled: `InitChat` always installs a session.
- **Asynchrony.** Each send is one atomic step. The `await`s inside `sendMessage` are not
  modelled, and neither is the unawaited `initChat()` in `handleClose` or in the mount
  effect (`MountedChatbot` runs it to completion before any user action). So the state in
  which the user message is shown but the reply has not arrived is not modelled, and
  neither are two sends that overlap.
  - Closing the window while a reply is pending is not modelled. In the component the late
    reply, or the apology, is still appended through `setMessages(prev => …)` (lines 279
    and 285), so it lands in the emptied transcript of the new session. `isLoading` also
    stays true into the new session until that reply arrives, because `handleClose`
    (lines 297-301) does not reset it.
  - Because each send is atomic, `isLoading` is true only inside `SendMessage`: every state
    between two method calls has `isLoading == false`, and the raise and the clear are seen
    only through the ghost log `loadingWrites`. So `PressSend`'s disabled branch is never
    taken from a state reached through the other methods.
- **DOM and event plumbing.**
  - `addEventListener`, `getBoundingClientRect`, `offsetHeight` and `scrollIntoView` are
    not modelled. Their results are integer or optional parameters.
  - `Content01.ElementById` is `document.getElementById` restricted to the four section ids
    of that page.
- **Fractional values.** Scroll offsets and element positions are integers. The
  floating-point scroll-progress bar of the historical-mission page is not modelled.
  Neither is `scrollToSection` of the storytelling page.
- **Rendering.** Animation, hover state, the 3D scene and all static text are not
  modelled. Neither is `src/App.jsx`, which only composes the components.
- **ToLowerCase:** it lower-cases ASCII letters only. This is exact for the four headings,
  whose upper-case letters are all ASCII. It is not full Unicode lower-casing.
- **Whitespace.IsSpace:** it is the fixed set of code points that ECMAScript's `trim()` and
  `\s` treat as whitespace, with the Unicode space separators listed explicitly.
- **ChatbotAI.ChatWindow.HandlePredefinedPrompt:** the condition that its button is shown
  only while the transcript is empty is modelled as a precondition. The rendering that
  enforces it is not modelled.
