# Visual Audit Assistant: a Dafny model of its client-side logic

The application is a single-page web client. The user uploads an image and
asks a question about it. A hosted multimodal model answers with text plus
labelled bounding boxes on a 0-1000 scale. The page draws those boxes over
the image as percentage rectangles. A second page is a chat with the same
model, and a shell routes between a dashboard, the audit page and the chat
page through the URL fragment.

This project models that logic and proves what it promises:

- `Js.dfy`: the JavaScript built-ins the code relies on. These are
  `String.prototype.trim`, `toLowerCase`, `replace` with a one-character
  pattern and `split`. Thrown errors appear as an `Outcome`
  (`Returned` | `Thrown`).
- `Types.dfy`: the records and the `AppView` enumeration.
- `Overlay.dfy`: the projection of one box to a rectangle, and one overlay
  per item.
- `Root.dfy`: hash routing, `navigate`, the sidebar flag and the page
  shown. The `App` class holds the view, the sidebar flag and the
  browser's `location.hash`.
- `GeminiService.dfy`: the data-URL prefix strip, the analysis call (every
  failure propagates) and the chat call (never throws). Each remote call is
  a function from the request sent to the reply received. So the contracts
  can say which request went out, and every reply (text, empty text,
  thrown error) is covered.
- `Audit.dfy`: the audit page as a class over its six state fields. Its
  handlers are methods, and the pure choices of what to display are
  functions.
- `Chat.dfy`: the chat page as a class over its transcript, its input and
  its loading flag. The transcript invariant is that roles alternate from
  the greeting on.

Each handler that awaits the service is split into a start step and a
completion step. A third method composes the two into one atomic step.

Points where the code does less than one might expect, and the model follows the code:

- The analysis service does not turn failures into a generic error. It
  rethrows each one unchanged. The page then shows one fixed message.
- The parsed reply is not checked against the response schema. It is
  returned as it is, so the items are neither clamped nor reordered.
- A reversed box gives a negative height or width percentage. The
  projection neither clamps nor reorders the coordinates.
- `replace('#', '')` removes the first `#` of the hash. The browser reports
  the hash as `''` or as `#` followed by the fragment, so the `#` removed is
  the leading one. A later
  `#` stays in the route, and the route then selects the dashboard.

## Model

| member | source | states |
|---|---|---|
| `Js.RemoveFirst` | App.tsx:15 | removing the first `#`: the string is unchanged when it has no `#`; otherwise exactly the character at the first `#` is cut out |
| `Js.IndexOf` | App.tsx:15 | the first occurrence of a character: it is absent exactly when the character does not occur; otherwise it is an occurrence with none before it |
| `Js.Split` | services/geminiService.ts:16 | `split(',')` yields at least one piece, and no piece contains the separator |
| `Js.JoinSplit` | services/geminiService.ts:16 | joining the pieces of a split with the separator rebuilds the original string |
| `Js.SplitJoin` | services/geminiService.ts:16 | splitting a join of separator-free pieces gives back those pieces |
| `Js.At` | services/geminiService.ts:16 | indexing past the end of the pieces yields undefined; inside the range it yields that piece |
| `Js.TrimStart` | pages/AuditPage.tsx:31 | leading trim: the result is a suffix, every removed character is white space, and the result does not start with white space |
| `Js.TrimEnd` | pages/ChatPage.tsx:30 | trailing trim: the result is a prefix, every removed character is white space, and the result does not end with white space |
| `Js.TrimEmptyIffBlank` | pages/ChatPage.tsx:30 | `!s.trim()` holds exactly when every character of `s` is white space |
| `Js.Trim` | pages/AuditPage.tsx:31 | definition: `s.trim()` is the leading trim followed by the trailing trim |
| `Js.ToLower` | App.tsx:37 | `toLowerCase` keeps the length and lowers every character |
| `Types.ViewName` | types.ts:26-30 | each `AppView` member's string value is its non-empty upper-case name |
| `Overlay.Project` | components/BoundingBoxOverlay.tsx:43-48 | reading the box by position, top = ymin/10 %, left = xmin/10 %, height = (ymax-ymin)/10 %, width = (xmax-xmin)/10 % |
| `Overlay.ProjectFarEdges` | components/BoundingBoxOverlay.tsx:45-48 | top + height = ymax/10 and left + width = xmax/10 |
| `Overlay.ProjectNoReordering` | components/BoundingBoxOverlay.tsx:47-48 | the height is negative exactly when ymax < ymin, and likewise for the width; nothing is reordered |
| `Overlay.ProjectNoClamping` | components/BoundingBoxOverlay.tsx:43-48 | coordinates below 0 or above 1000 put the rectangle outside 0-100 %; nothing is clamped |
| `Overlay.ProjectWithinImage` | components/BoundingBoxOverlay.tsx:45-48 | when 0 <= ymin <= ymax <= 1000 and 0 <= xmin <= xmax <= 1000, the rectangle lies within 0-100 % on both axes |
| `Overlay.ProjectExample` | components/BoundingBoxOverlay.tsx:45-48 | the box (100, 200, 300, 400) gives top 10 %, left 20 %, height 20 %, width 20 % |
| `Overlay.OverlaysFrom` | components/BoundingBoxOverlay.tsx:41-62 | mapping from a position on: one overlay per remaining item, keyed by its index |
| `Overlay.Overlays` | components/BoundingBoxOverlay.tsx:41-62 | exactly one overlay per item, in item order, keyed by index, titled with the item's label, placed by `Project` |
| `Overlay.Render` | components/BoundingBoxOverlay.tsx:33-63 | definition: the component's output is the overlays of the items; the measured dimensions are not used |
| `Overlay.RenderIgnoresDimensions` | components/BoundingBoxOverlay.tsx:11-48 | the rendered rectangles do not depend on the measured container dimensions |
| `Root.ParseHash` | App.tsx:14-27 | after the first `#` is removed, the view is AUDIT exactly for `audit` and CHAT exactly for `chat`; everything else gives DASHBOARD |
| `Root.ParseHashExamples` | App.tsx:15-27 | `''`, `#dashboard`, `#AUDIT` and `##audit` give DASHBOARD; `#audit` gives AUDIT and `#chat` gives CHAT |
| `Root.ParseHashInnerHash` | App.tsx:15-27 | `#au#dit` gives DASHBOARD: only the leading `#` is removed, and the second one stays in the route |
| `Root.ParseReportedHash` | App.tsx:14-27 | on a hash of the form the browser reports (empty, or starting with `#`), AUDIT is chosen exactly for `#audit` and CHAT exactly for `#chat` |
| `Root.HashAfterAssigning` | App.tsx:37 | for a fragment the setter stores unencoded, `location.hash` reads back in the reported form: one leading `#` of the assigned string is dropped, a non-empty fragment reads back behind one `#`, and an empty fragment (`''` or `#`) reads as empty |
| `Root.RoutesKeptInFragment` | App.tsx:37 | every route that `navigate` writes consists of characters the hash setter stores unencoded |
| `Root.RouteOf` | App.tsx:37 | definition: the route `navigate` writes is the view's string value passed through `toLowerCase` |
| `Root.RouteNames` | App.tsx:37 | `navigate` writes `dashboard`, `audit` and `chat` for the three views |
| `Root.RemoveLeadingHash` | App.tsx:15 | removing the first `#` from `#` + route gives the route |
| `Root.NavigateRoundTrip` | App.tsx:14-37 | for every view, parsing the hash that `navigate` writes yields that view |
| `Root.RenderedPages` | App.tsx:113-115 | exactly one page is rendered, namely the one matching the current view |
| `Root.App.constructor` | App.tsx:9-10 | the first render shows the dashboard with the sidebar closed, over a hash of the reported form |
| `Root.App.HandleHashChange` | App.tsx:14-31 | the view becomes the parse of the current hash, which puts hash and view in sync |
| `Root.App.HashChanged` | App.tsx:30 | a hash-change event records the new hash and sets the view from it |
| `Root.App.Navigate` | App.tsx:35-39 | sets the view, writes the lower-cased name to the hash and closes the sidebar; hash and view are then in sync |
| `Root.App.OpenSidebar` | App.tsx:108 | the menu button opens the sidebar |
| `Root.App.CloseSidebar` | App.tsx:61-77 | the overlay click and the close button close the sidebar |
| `GeminiService.SplitHead` | services/geminiService.ts:16 | the first piece of a split is the text before the first separator, or the whole string when there is none |
| `GeminiService.StripDataUrlPrefix` | services/geminiService.ts:14-17 | `split(',')[1]` is undefined exactly when there is no comma; otherwise it is the comma-free text right after the first comma, running up to the next comma or to the end, and it is all of the rest when the rest has no comma |
| `GeminiService.DataUrlRoundTrip` | services/geminiService.ts:16 | for a `data:<mediatype>;base64,<data>` URL (RFC 2397, section 3) whose media type has no comma and whose payload is RFC 4648 base64, stripping recovers the payload exactly |
| `GeminiService.FileToGenerativePart` | services/geminiService.ts:10-22 | a reader failure rejects with the same error; a read data URL resolves to its stripped payload |
| `GeminiService.AnalysisRequestFor` | services/geminiService.ts:56-70 | definition: the request names the model and carries the image payload (possibly undefined) with its MIME type, then the prompt text, both unchanged and in that order |
| `GeminiService.AnalyzeAuditImage` | services/geminiService.ts:55-105 | returns exactly when the reply has non-empty text that parses, and then returns the parsed value unmodified; a thrown error is rethrown unchanged; absent or empty text throws "No response text from Gemini"; a parse error is rethrown |
| `GeminiService.AnalyzeExamples` | services/geminiService.ts:98-105 | a reply parsed as `{answer: "ok", items: []}` is returned as exactly that; a reply that fails to parse gives the parser's error and no partial response |
| `GeminiService.SendChatMessage` | services/geminiService.ts:111-130 | never throws, and always returns non-empty text: the reply text to the request built from the caller's history and the new message, or "I couldn't generate a response." for empty text, or "Sorry, I encountered an error processing your request." on failure |
| `Audit.CannotSubmit` | pages/AuditPage.tsx:31 | definition: the handler's guard holds when no file is selected or the prompt trims to nothing; the same expression gives the `disabled` prop at line 138 |
| `Audit.CannotSubmitIffMissingInput` | pages/AuditPage.tsx:31 | the analysis guard (the same expression disables the submit button at line 138) holds exactly when no file is selected or the prompt is white space only |
| `Audit.AnalysisOutcome` | pages/AuditPage.tsx:36-42 | the `try` block: a reader failure is the outcome; otherwise the stripped payload, the file's MIME type and the prompt go to the analysis |
| `Audit.ImageAreaFor` | pages/AuditPage.tsx:66-90 | the overlay is shown exactly when there is a preview and a result with at least one item; otherwise the plain preview, or the upload prompt when there is no preview |
| `Audit.Labels` | pages/AuditPage.tsx:169-177 | the detected-item chips: one label per item, in order |
| `Audit.ResultPanelFor` | pages/AuditPage.tsx:148-182 | no panel exactly when there is neither result nor error; an error is shown in preference to a result; with a result and no error, the panel shows the result's answer and one label per item, in order |
| `Audit.AuditPage.constructor` | pages/AuditPage.tsx:9-14 | no file, no preview, empty prompt, not analysing, no result, no error |
| `Audit.AuditPage.HandleFileSelect` | pages/AuditPage.tsx:18-27 | the first file and its URL replace the current ones and result and error are cleared; an empty selection changes nothing |
| `Audit.AuditPage.SetPrompt` | pages/AuditPage.tsx:128 | the prompt becomes the typed text |
| `Audit.AuditPage.StartAnalyze` | pages/AuditPage.tsx:31-34 | a no-op under the guard; otherwise analysing is set and the error cleared, and the previous result stays |
| `Audit.AuditPage.CompleteAnalyze` | pages/AuditPage.tsx:43-49 | success replaces the result; failure sets "Failed to analyze image. Please try again." and keeps the result; analysing is off after either |
| `Audit.AuditPage.HandleAnalyze` | pages/AuditPage.tsx:29-50 | the whole handler: unchanged under the guard; otherwise the final result and error follow the analysis outcome for the file and prompt at submission time |
| `Audit.AuditPage.RemoveImage` | pages/AuditPage.tsx:93-97 | clears preview, file and result; prompt and error are unchanged |
| `Audit.AuditPage.ImageArea` | pages/AuditPage.tsx:66-90 | while the preview and the file agree, the upload prompt shows exactly when no file is selected, and the overlay exactly when a file is selected and the result has at least one item |
| `Audit.AuditPage.SubmitDisabled` | pages/AuditPage.tsx:138 | the submit button's `disabled` prop is true exactly when there is no file or the prompt is white space only |
| `Chat.History` | pages/ChatPage.tsx:44-47 | the history is one turn per message, in order, with the role kept and the text as its single part |
| `Chat.ExchangeKeepsAlternation` | pages/ChatPage.tsx:30-66 | appending a user turn and then a model turn keeps the roles alternating from `model` and the length odd |
| `Chat.ReplyText` | pages/ChatPage.tsx:50-66 | the model turn carries the service's text, or the connection-trouble text when the call throws |
| `Chat.CatchUnreachable` | pages/ChatPage.tsx:58-66 | the service never throws, so the catch branch never runs and the model turn is never empty |
| `Chat.ChatPage.constructor` | pages/ChatPage.tsx:8-17 | the transcript is a single model greeting with id `1`; the input is empty; nothing is loading |
| `Chat.ChatPage.SetInput` | pages/ChatPage.tsx:124 | the input becomes the typed text |
| `Chat.ChatPage.StartSend` | pages/ChatPage.tsx:30-47 | a no-op when the input is blank or a request is loading; otherwise it appends a user turn with the untrimmed input, clears the input, sets loading, and returns the history of the transcript before that turn |
| `Chat.ChatPage.FinishSend` | pages/ChatPage.tsx:51-69 | exactly one model turn is appended and loading is cleared |
| `Chat.ChatPage.HandleSend` | pages/ChatPage.tsx:28-70 | the whole handler: unchanged under the guard; otherwise the transcript grows by the user turn and the service's reply to the pre-append history, and alternation holds throughout |

## Left out

- The hosted-model client (`generateContent`, `chats.create`,
  `sendMessage`) is a function parameter from request to reply. Its
  system instructions, response schema and credential are not modelled.
- `JSON.parse` is a parameter too. Its internals and the `as` cast are not
  modelled, and so neither are values that parse but do not have the
  response's shape.
- The file reader's base64 encoding of the file's bytes is not modelled.
  The reader is a parameter that yields a data URL or an error. Only the
  prefix strip and its round trip are proved.
- `URL.createObjectURL`, window listeners, `scrollIntoView`, image loading
  and resize measurement are not modelled. The object URL is a parameter.
  The measured dimensions are an unused argument.
- Message ids from `Date.now()` are parameters. Timestamps are not
  modelled.
- Number formatting and the `+ '%'` concatenation are not modelled. The
  projection is over exact reals, so floating-point rounding is not
  captured.
- Async interleaving is not modelled. Each handler's start and completion
  are sequential steps, so a stale reply overwriting a newer one cannot
  happen in the model.
- Console logging is not modelled.
- JSX markup and styling are not modelled, apart from the choices of what
  to display.
- pages/Dashboard.tsx and components/AuditHistoryChart.tsx are static
  mock statistics and a chart, and are not part of this model.
- `AuditSession` is declared as a datatype only, because no flow builds
  one.
- How CSS draws a rectangle with a negative size or outside 0-100 % is not
  modelled. A negative height or width is ignored by CSS, so the box
  collapses to its border; the model stops at the percentages.
- Root.HashAfterAssigning: the hash setter's percent-encoding is not
  modelled. The function is stated only for fragments of printable ASCII
  outside the URL standard's fragment percent-encode set.
- The `Button` component is not part of this model. It also receives
  `isLoading={isAnalyzing}`, and what it does with that prop (for instance
  disabling itself while loading) is not modelled.
- Js.ToLower: maps only ASCII letters. That is enough for the three view
  names it is applied to, but it is weaker than Unicode `toLowerCase`.
- Types.BoundingBox: the field `label` is named `labelText`, because
  `label` is a Dafny keyword.
