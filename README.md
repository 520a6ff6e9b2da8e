# ClinCellEditor: the numeric-only cell editor, in Dafny

This project models `ClinCellEditor`, the custom cell editor of a small
ag-grid demonstration (`src/BasicCellEditor.tsx`). The editor is a text
input that the grid opens on a price cell. Its logic is a few decision
tables and a little state:

- **Start of an edit** (`createInitialState`). The key code and the
  character that started the edit, and the cell's value, decide the
  starting text buffer. They also decide whether the first attach selects
  all of that text.
- **Key filter** (`onKeyDown` and its predicates). Every keydown is
  classified. Left/Right arrows and Delete/Backspace have their propagation
  stopped, so the grid does not act on them. Other keys lose their default
  action unless they end the edit (Enter, Tab, Esc) or their text contains
  a decimal digit.
- **Cancel before start** (`isCancelBeforeStart`). The edit is refused when
  its initiating character is not found in `"1234567890"` by
  `String.prototype.indexOf`.
- **Editor state** (`afterGuiAttached`, `getValue`, `onChange`,
  `isCancelAfterEnd`). The state is the text buffer, the one-shot
  select-all flag and the selection the editor last placed on the input.

`js.dfy` (module `JsBuiltins`) states the JavaScript built-ins the editor
relies on. Strings are sequences of UTF-16 code units, as in JavaScript, so
`length` and `String.fromCharCode` keep their JavaScript meaning. The
built-ins are array `indexOf`, string `indexOf`, `/\d/.test` and
`String.fromCharCode`. `editor.dfy` (module `BasicCellEditor`) holds the
editor itself. The pure decisions are functions. The component's state is
the class `CellEditor`, whose methods update its fields.

Modelling choices:

- `charPress` is `null` when no character started the edit. The source only
  tests it for truthiness, so `null`, `undefined` and `""` all behave the
  same. All three are modelled as the empty string.
- `keyPress` is `Option<int>`, where `None` is the grid's `null`. Strict
  equality with a key code is false for `None`.
- `which` is `Option<int>`, where `None` is `undefined`. `key` is a string,
  and the empty string stands for a missing name.
- The DOM actions `stopPropagation` and `preventDefault` become the
  `KeyAction` result. `select` and `setSelectionRange` become the abstract
  `Selection` field.
- `maxLength={4}` (src/BasicCellEditor.tsx:164) only limits typing in the
  browser. `getValue` (src/BasicCellEditor.tsx:136-138) returns the buffer
  unchanged, so nothing in the model bounds the returned length.

## Model

| member | source | states |
|---|---|---|
| JsBuiltins.ArrayIndexOf | src/BasicCellEditor.tsx:53 | array `indexOf` returns the first position holding the value, or -1 exactly when the value is absent |
| JsBuiltins.IndexOf | src/BasicCellEditor.tsx:143 | string `indexOf` returns the first position where the needle occurs, or -1 exactly when it occurs nowhere |
| JsBuiltins.TestDigit | src/BasicCellEditor.tsx:63-65 | the unanchored `/\d/` test is true iff some code unit of the string is a decimal digit |
| JsBuiltins.FromCharCode | src/BasicCellEditor.tsx:71 | `String.fromCharCode` yields one code unit, congruent to the code modulo 2^16 and equal to it when in range |
| JsBuiltins.SubstringOfDigitsIsDigits | src/BasicCellEditor.tsx:143 | anything found inside "1234567890" consists of digits only |
| BasicCellEditor.CreateInitialState | src/BasicCellEditor.tsx:19-42 | Backspace/Delete clears the buffer and keeps select-all on whatever the character; otherwise a typed character becomes the buffer with select-all off; otherwise the existing value is kept and select-all is off iff F2 started the edit |
| BasicCellEditor.CancelsBeforeStart | src/BasicCellEditor.tsx:142-147 | the edit is refused iff a character started it and that character is not a substring of "1234567890" |
| BasicCellEditor.SingleCharCancelsIffNotDigit | src/BasicCellEditor.tsx:142-147 | a one-character initiator is refused iff it is not a decimal digit |
| BasicCellEditor.CancelUsesSubstringSemantics | src/BasicCellEditor.tsx:143 | with substring semantics "12" is accepted and "21" is refused |
| BasicCellEditor.DigitInitiatorStartsWithThatDigit | src/BasicCellEditor.tsx:26-29 | a digit typed into an inactive cell is not refused and becomes the whole buffer, with select-all off |
| BasicCellEditor.UncancelledStartIsDigitsOrExisting | src/BasicCellEditor.tsx:23-36 | an edit that is not refused starts from the existing value or from a buffer of digits only |
| BasicCellEditor.IsLeftOrRight | src/BasicCellEditor.tsx:52-54 | Left/Right is recognised by `keyCode` 37 or 39 only |
| BasicCellEditor.CharCode | src/BasicCellEditor.tsx:56-61 | the char code is `which` when defined, else `keyCode` |
| BasicCellEditor.KeyString | src/BasicCellEditor.tsx:71 | the key text is the `key` name when non-empty, else the one code unit of the char code modulo 2^16 |
| BasicCellEditor.IsKeyPressedNumeric | src/BasicCellEditor.tsx:67-73 | a key is numeric iff its key text contains a decimal digit anywhere |
| BasicCellEditor.DeleteOrBackspace | src/BasicCellEditor.tsx:75-80 | Delete/Backspace is recognised by the char code being 46 or 8 |
| BasicCellEditor.FinishedEditingPressed | src/BasicCellEditor.tsx:82-89 | the edit-ending keys are those whose char code is 13, 9 or 27 |
| BasicCellEditor.KeyDownAction | src/BasicCellEditor.tsx:91-100 | propagation is stopped iff `keyCode` is 37/39 or the char code (`which`, else `keyCode`) is 8/46; the default is prevented iff none of those holds, the char code is not Enter/Tab/Esc and the key text has no digit; otherwise the key is left alone |
| BasicCellEditor.FallbackKeyIsNumericIffDigitCode | src/BasicCellEditor.tsx:56-73 | without a `key` name, a key counts as numeric iff its char code modulo 2^16 is that of '0'..'9' |
| BasicCellEditor.DigitInKeyNameIsNotFiltered | src/BasicCellEditor.tsx:63-73 | the unanchored digit test lets "F1" through and filters "Home" |
| BasicCellEditor.CellEditor.constructor | src/BasicCellEditor.tsx:44-48 | the buffer and the select-all flag start as the initial state computed from the start parameters |
| BasicCellEditor.CellEditor.AfterGuiAttached | src/BasicCellEditor.tsx:114-134 | with the flag set, selects everything and clears the flag; otherwise puts the caret at the end of a non-empty buffer and leaves an empty one alone; afterwards the flag is always clear and the buffer unchanged |
| BasicCellEditor.CellEditor.GetValue | src/BasicCellEditor.tsx:136-138 | returns the buffer as it is, without any length cap |
| BasicCellEditor.CellEditor.OnChange | src/BasicCellEditor.tsx:162 | the change event replaces the whole buffer and nothing else |
| BasicCellEditor.CellEditor.IsCancelBeforeStart | src/BasicCellEditor.tsx:142-147 | answers with the cancel rule applied to the stored initiating character: true iff it is non-empty and not a substring of "1234567890" |
| BasicCellEditor.CellEditor.IsCancelAfterEnd | src/BasicCellEditor.tsx:151-153 | never discards the result of an edit |
| BasicCellEditor.DigitStartedSession | src/BasicCellEditor.tsx:124-131 | a session started by a digit is not refused, its attach puts the caret after that digit rather than selecting it, and the grid gets the digit back |

## Left out

- React wiring (`forwardRef`, `useState`, `useRef`, `useImperativeHandle`) and the JSX rendering: the component's state is modelled as the fields of `CellEditor`.
- The deferred focus in `useEffect` (`setTimeout`): asynchronous DOM scheduling with no outcome the editor observes.
- `focus`, `select`, `setSelectionRange`, `stopPropagation` and `preventDefault` as DOM effects: they appear only as the returned `KeyAction` and the abstract `Selection`. What the browser then does with an event whose default was prevented (not inserting the character) is not modelled.
- `maxLength={4}`: enforced by the browser, not by the code.
- The `window.event` fallback in `getCharCodeFromEvent`: a browser-global lookup; the event is always the one passed in.
- A `which` that is `null` rather than `undefined`: only the defined and undefined cases are modelled.
- The `if (event.preventDefault)` guard: React keyboard events always carry `preventDefault`.
- BasicCellEditor.CellEditor.AfterGuiAttached: the case where the input element is not mounted (`refInput.current` is null), in which the call does nothing, is not modelled.
- A cell value that is not a string (the demo's prices are numbers): the buffer holds the value's text form.
- `src/App.tsx`: static row data and grid column configuration, with no logic.
