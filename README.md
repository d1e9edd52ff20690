# Neon editor core, modelled in Dafny

This project models the three parts of the live HTML/CSS/JS playground's
`editor.js` whose behaviour can be stated exactly, and proves properties of
each:

- **The preview composer**, `buildSrcDoc(html, css, js)`. It is one
  JavaScript template literal with three substitutions. The CSS goes into the
  style element after a baseline reset rule. The markup goes into the body.
  Then come a console-forwarding shim script and the user's script, wrapped
  in `try { … } catch(e) { console.error(…) }`. The model keeps the
  template's fixed text character for character. It proves where each buffer
  lands and what surrounds it. It also proves that, given the lengths of the
  CSS and the markup, the buffers can be read back out of the document.
  Without those lengths, different buffers can compose to the same document
  (for instance, CSS made of the template's own text that closes the style
  element and opens the body).
- **The console receiver**, the window's `message` listener. It ignores
  messages without the `__neon_console` marker and colours the type label by
  severity. It joins the arguments with single spaces, appends one line to
  the console body and scrolls the body to the bottom. The colour choice and
  the rendering are functions. The console body is a class whose `Receive`
  method appends. Lemmas cover runs of messages: the log is append-only, and
  there is exactly one line per accepted message, in arrival order.
- **The drag resizer**, `setupResizer`. A state machine over `dragging`,
  `startX`, `startWidth`, the left panel's width and the body's cursor
  styles. The handlers are methods of a class, each proved equal to one step
  of the state machine. The lemmas state:
  - when the mouse path may change the width (`320 < startWidth + dx < innerWidth - 420`);
  - that the touch path has no bounds;
  - that moves, releases and touch ends do nothing outside a drag.

Files:

- `wrappers.dfy`: the `Option` type.
- `template.dfy`: template literals, as `Fill` and its inverse `Unfill`. It also has occurrence facts and text written as lines.
- `composer.dfy`: `buildSrcDoc`.
- `console.dfy`: the message listener.
- `resizer.dfy`: the resizer.

Inputs the code reads from the browser become parameters:

- the arrival time (`toLocaleTimeString()`);
- the console body's `scrollHeight`;
- the pointer's `clientX`;
- the left panel's `getBoundingClientRect().width`;
- `window.innerWidth`.

## Model

| member | source | states |
|---|---|---|
| Template.Fill3 | editor.js:41-88 | A literal with three substitutions is its four fixed strings with the three values between them, in order |
| Template.FillLength | editor.js:41-88 | A filled literal is exactly as long as its fixed strings and values together |
| Template.FillStringPart | editor.js:41-88 | Every fixed string of a literal appears verbatim at the offset given by the lengths of everything before it |
| Template.FillValuePart | editor.js:159 | Every substituted value appears verbatim at its offset, with no escaping or conversion |
| Template.UnfillFill | editor.js:41-88 | Reading a filled literal back with the values' lengths recovers exactly the values |
| Template.FillUnfill | editor.js:41-88 | Whatever text `Unfill` accepts is the literal filled with the values it returns, which have the requested lengths |
| Template.UnlinesAppend | editor.js:56-77 | The text of two runs of lines is the text of the first run followed by the text of the second |
| Template.UnlinesLineAt | editor.js:56-77 | A line appears verbatim right after the text of the lines before it |
| Composer.BuildSrcDoc | editor.js:39-89 | The document's length is the template's fixed length plus the three buffers' lengths |
| Composer.StyleElement | editor.js:46-50 | The CSS sits inside the template's style element, right after the baseline reset rule, a line break and an indent, and `</style>` follows it after a line break |
| Composer.MarkupInBody | editor.js:52-55 | The markup follows `<body>` and a line break, and the template's first `<script>` (the shim's) opens right after the markup and a blank line |
| Composer.ShimBeforeUserScript | editor.js:55-86 | The whole console shim comes before the user script: then its closing tag, a blank line, the user script's opening tag and `try {`, and only then the script |
| Composer.ShimCarriesMarker | editor.js:57-61 | The shim line that posts every message contains the `__neon_console: true` marker field |
| Composer.UserScriptGuarded | editor.js:81-85 | The user script sits between `try {` and the catch clause that reports the thrown value through `console.error` |
| Composer.DecomposeBuild | editor.js:39-89 | Reading a composed document back, given the CSS and markup lengths, returns exactly the three buffers |
| Composer.BuildDecompose | editor.js:39-89 | Any document that reads back is the composition of the buffers it reads back to |
| Composer.SameDocumentIffSameSources | editor.js:39-89 | For equal CSS and markup lengths, two compositions are equal if and only if their buffers are equal |
| Composer.LengthsNeeded | editor.js:41-55 | The read-back needs the lengths: markup starting with the template's text between the CSS and the markup composes, under empty CSS, to the same document as different buffers |
| Console.TypeColor | editor.js:146-157 | The if-chain over the type gives the same colour as looking the type up among error, warn, info and debug, with the log colour for any other type |
| Console.ColorsDistinguishSeverities | editor.js:146-157 | A type gets the log colour exactly when it is not one of the four severities, and the four severities get pairwise different colours |
| Console.Join | editor.js:159 | Joining one part gives the part; joining no parts gives the empty text |
| Console.Split | editor.js:159 | Splitting gives at least one piece, and no piece contains the separator |
| Console.JoinSplit | editor.js:159 | Joining the pieces of a split with the separator restores the text |
| Console.SplitJoin | editor.js:159 | Splitting the join of a non-empty list of separator-free parts restores the parts |
| Console.JoinedArgsExample | editor.js:159 | The arguments `["x", "1"]` join to `x 1` and split back |
| Console.EntryFor | editor.js:143-159 | A rendered line carries the arrival time, the type, the type's colour, and the arguments joined with single spaces, which split back into the arguments when they are non-empty and none contains a space |
| Console.Handle | editor.js:140-161 | A falsy message or a falsy marker is ignored; a marked message without joinable arguments throws; otherwise exactly the rendered line is appended |
| Console.Accepted | editor.js:140-159 | A message is accepted exactly when the listener appends a line for it, whatever its arrival time |
| Console.Step | editor.js:140-161 | One message leaves every earlier line in place and adds one line at the end exactly when it is accepted |
| Console.Replay | editor.js:138-163 | The listener over a run of messages never shortens the log and adds at most one line per message (that the old lines stay in place is `ReplayAppends`) |
| Console.StepAppendsLine | editor.js:140-161 | One message's effect on the log is to append exactly the lines it renders: its line when accepted, none otherwise |
| Console.Rendered | editor.js:138-163 | A run of messages renders at most one line per message |
| Console.ReplayAppends | editor.js:138-163 | Handling a run of messages only appends: the result is the old log followed by one line per accepted message, in arrival order |
| Console.AllAcceptedLogged | editor.js:138-163 | After N accepted messages, N lines were added, line k being the rendering of message k |
| Console.UnmarkedIgnored | editor.js:140 | A run of messages that are not accepted leaves the log unchanged |
| Console.WarnExample | editor.js:140-161 | A marked `warn` message with arguments `["x", "1"]` adds exactly one line, labelled `warn`, in the warn colour, reading `x 1` |
| Console.Markup | editor.js:159 | The line's markup opens with the time span and is as long as its fixed text and its four fields together |
| Console.MarkupShows | editor.js:159 | The line's markup contains the type label and then the joined arguments, both verbatim |
| Console.MarkupReadsBack | editor.js:159 | Reading the markup back with the field lengths recovers the time, colour, type and text |
| Console.ConsoleBody.constructor | editor.js:138-163 | The console body starts empty and unscrolled |
| Console.ConsoleBody.Receive | editor.js:138-163 | The listener's effect: the lines become one step of the log, and the body scrolls to the given height exactly when a line was appended |
| Resizer.MouseWidth | editor.js:183-189 | The mouse asks for a width exactly when `320 < startWidth + dx < innerWidth - 420`, and then it asks for `startWidth + dx` |
| Resizer.Next | editor.js:173-210 | The handlers as one state machine: a drag is on exactly after a press or a move during a drag; only presses move the anchor, to the pointer and the panel's width; only moves during a drag change the width |
| Resizer.IdleIgnoresPassive | editor.js:182-210 | Outside a drag, any run of mouse moves, mouse ups, touch moves and touch ends leaves the whole state unchanged |
| Resizer.MouseMoveBounded | editor.js:181-190 | A mouse move changes the width only during a drag, only to a width strictly inside the bounds, namely the start width plus the displacement; a move inside the bounds does set it |
| Resizer.MovesOnlySetWidth | editor.js:181-209 | Mouse and touch moves change nothing but the width: the drag anchor, the drag flag and the body styles stay |
| Resizer.MouseResizePossible | editor.js:185-187 | In integer pixels, some pointer position yields a width exactly when the window is at least 742 pixels wide |
| Resizer.NarrowWindowFreezes | editor.js:185-189 | In integer pixels, a mouse move in a window narrower than 742 pixels changes nothing |
| Resizer.MouseRunKeepsMin | editor.js:173-210 | Over any run without touch moves, a width set on the panel stays above 320 |
| Resizer.TouchMoveUnbounded | editor.js:205-209 | A touch move during a drag sets the width to the start width plus the displacement, without bounds |
| Resizer.TouchCanGoNegative | editor.js:200-209 | A touch drag can set a negative width, where the same mouse drag changes nothing |
| Resizer.MouseUpEndsDrag | editor.js:192-197 | Releasing the mouse during a drag ends it and clears the cursor and user-select styles, keeping the width |
| Resizer.DragHandle.constructor | editor.js:170-171 | The handle starts with no drag, no width set and no body styles |
| Resizer.DragHandle.OnMouseDown | editor.js:173-179 | The mousedown handler is one state-machine step: it starts a drag anchored at the pointer and the panel's width, and sets the resize cursor with text selection off |
| Resizer.DragHandle.OnMouseMove | editor.js:181-190 | The mousemove handler is one state-machine step |
| Resizer.DragHandle.OnMouseUp | editor.js:192-197 | The mouseup handler is one state-machine step |
| Resizer.DragHandle.OnTouchStart | editor.js:200-204 | The touchstart handler is one state-machine step: a drag anchored at the first touch, with the body styles untouched |
| Resizer.DragHandle.OnTouchMove | editor.js:205-209 | The touchmove handler is one state-machine step |
| Resizer.DragHandle.OnTouchEnd | editor.js:210 | The touchend handler is one state-machine step: it ends the drag unconditionally |

## Left out

- What the generated document does when it runs in the iframe is not modelled. This covers:
  - whether the `try` catches;
  - `postMessage` delivery;
  - whether the wrapped console methods still call the original;
  - the `error` listener.

  That is JavaScript run by the browser, so only the document's text is modelled.
- The shim's argument conversion (`JSON.stringify` / `String`) appears only as text. The arguments arrive at the listener already as strings.
- The debounced preview update and the live indicator are timers (`setTimeout` / `clearTimeout`). The download is `Blob` / object-URL plumbing around a call to `buildSrcDoc`. Tab switching, the file indicator and the Ctrl+S shortcut are DOM bindings. None of these is modelled.
- The arrival time comes from `new Date().toLocaleTimeString()` and is taken as a parameter.
- The browser parses the line's `innerHTML` with no escaping. That parsing is not modelled; the markup is kept as text.
- The `div` element and its `console-line` class are not modelled. An `Entry` stands for the appended line.
- The listener's `typeStyle` variable (editor.js:147) is computed but never used, so it is not modelled.
- Console.Data: the message's `type` and `args` are modelled as a string and an optional list of strings.
  - A non-string `type` is not modelled. The source converts it to text when rendering and compares it with `===`.
  - Array elements that are not strings are not modelled. `join` converts them.
  - `None` stands for `args` that cannot be joined. The listener then throws before anything is appended.
- Console.ConsoleBody.Receive: `scrollTop` is set to the given `scrollHeight`. The browser's clamping of `scrollTop` to the scrollable range is not modelled.
- Resizer.DragHandle: the panel width is the integer value the handler writes to `left.style.width` in pixels. How the browser applies it is not modelled, for example rejecting a negative width.
  - Fractional widths from `getBoundingClientRect` are not modelled.
  - Touches other than the first one are not modelled.
- Resizer.Initial: `startX` and `startWidth` start as `undefined` in the source. The model starts them at 0. They are only read during a drag, and every drag sets them first.
- Composer.BuildSrcDoc: determinism and totality hold because it is a Dafny function. Its contract states only the length. Where each part sits is stated by the lemmas beside it, each about one contiguous stretch of the document.
- Strings are modelled as sequences of Dafny characters, not of UTF-16 code units. JavaScript's `.length` counts a character outside the Basic Multilingual Plane as two, and a JavaScript string can hold a lone surrogate, which a Dafny `string` cannot. So the lengths stated by `Composer.BuildSrcDoc`, `Template.FillLength` and `Console.Markup` count Dafny characters. Concatenation is unaffected, and the source reads no length of these texts.
