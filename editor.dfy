/** The numeric-only cell editor `ClinCellEditor`: how an edit session starts,
    which key presses it lets through, when it refuses to start, and the small
    state it keeps between the grid's lifecycle calls. */
module BasicCellEditor {
  import opened JsBuiltins

  const KeyBackspace := 8
  const KeyDelete := 46
  const KeyF2 := 113
  const KeyEnter := 13
  const KeyTab := 9
  const KeyEsc := 27
  const KeyLeft := 37
  const KeyRight := 39

  // ---------------------------------------------------------------------
  // Start of an edit
  // ---------------------------------------------------------------------

  /** What the grid hands the editor when an edit starts: the key code that
      started it (`None` when it was not started by a key), the character
      typed (empty when none) and the cell's current value. */
  datatype StartParams = StartParams(keyPress: Option<int>, charPress: JsString, value: JsString)

  /** The text buffer an edit starts from, and whether the first attach
      selects all of it. */
  datatype InitialState = InitialState(value: JsString, highlightAllOnFocus: bool)

  /** Backspace or Delete started the edit. */
  predicate StartedByClearingKey(keyPress: Option<int>)
  {
    keyPress == Some(KeyBackspace) || keyPress == Some(KeyDelete)
  }

  /** The starting buffer: cleared by Backspace/Delete, the typed character
      when one was typed, the existing value otherwise; only F2 and a typed
      character turn the select-all off. */
  function CreateInitialState(p: StartParams): (s: InitialState)
    ensures StartedByClearingKey(p.keyPress) ==> s.value == [] && s.highlightAllOnFocus
    ensures !StartedByClearingKey(p.keyPress) && p.charPress != [] ==>
              s.value == p.charPress && !s.highlightAllOnFocus
    ensures !StartedByClearingKey(p.keyPress) && p.charPress == [] ==>
              s.value == p.value && (s.highlightAllOnFocus <==> p.keyPress != Some(KeyF2))
  {
    var highlightAllOnFocus := true;
    if StartedByClearingKey(p.keyPress) then
      InitialState([], highlightAllOnFocus)
    else if p.charPress != [] then
      InitialState(p.charPress, false)
    else
      InitialState(p.value, if p.keyPress == Some(KeyF2) then false else highlightAllOnFocus)
  }

  /** `isCancelBeforeStart`: the edit is refused when a character started it
      and that character is not found in "1234567890". */
  function CancelsBeforeStart(charPress: JsString): (r: bool)
    ensures r <==> charPress != [] && !IsSubstring(charPress, Digits)
  {
    if charPress != [] && IndexOf(Digits, charPress) < 0 then true else false
  }

  /** A one-character initiator is refused exactly when it is not a digit. */
  lemma SingleCharCancelsIffNotDigit(c: CodeUnit)
    ensures CancelsBeforeStart([c]) <==> !IsAsciiDigit(c)
  {
    if IsAsciiDigit(c) {
      var k := if c == 48 then 9 else c as int - 49;
      assert Digits[k..k + 1] == [c];
      assert OccursAt(Digits, [c], k);
    } else {
      forall k | 0 <= k < |Digits| ensures !OccursAt(Digits, [c], k) {
        assert Digits[k..k + 1] == [Digits[k]];
      }
    }
  }

  /** `indexOf` looks for a substring, not for a character: "12" is let
      through while "21" is refused. */
  lemma CancelUsesSubstringSemantics()
    ensures !CancelsBeforeStart([49, 50])
    ensures CancelsBeforeStart([50, 49])
  {
    assert OccursAt(Digits, [49, 50], 0);
    forall k | 0 <= k <= |Digits| - 2 ensures !OccursAt(Digits, [50, 49], k) {
      assert Digits[k..k + 2] == [Digits[k], Digits[k + 1]];
    }
  }

  /** Typing a digit into an inactive cell starts an edit whose buffer is
      exactly that digit, with the caret (not a selection) to follow. */
  lemma DigitInitiatorStartsWithThatDigit(p: StartParams, d: CodeUnit)
    requires !StartedByClearingKey(p.keyPress)
    requires p.charPress == [d] && IsAsciiDigit(d)
    ensures !CancelsBeforeStart(p.charPress)
    ensures CreateInitialState(p) == InitialState([d], false)
  {
    SingleCharCancelsIffNotDigit(d);
  }

  /** An edit that is not refused starts from the existing value or from
      a buffer that holds decimal digits only. */
  lemma UncancelledStartIsDigitsOrExisting(p: StartParams)
    requires !CancelsBeforeStart(p.charPress)
    ensures var s := CreateInitialState(p).value;
            s == p.value || forall i :: 0 <= i < |s| ==> IsAsciiDigit(s[i])
  {
    if !StartedByClearingKey(p.keyPress) && p.charPress != [] {
      SubstringOfDigitsIsDigits(p.charPress);
    }
  }

  // ---------------------------------------------------------------------
  // Key filter
  // ---------------------------------------------------------------------

  /** A keydown event: its `keyCode`, its `which` (`None` when undefined) and
      its `key` name (empty when missing). */
  datatype KeyEvent = KeyEvent(keyCode: int, which: Option<int>, key: JsString)

  /** What `onKeyDown` does to the event. */
  datatype KeyAction = StopPropagation | PreventDefault | Allow

  /** Left or Right arrow, judged by `keyCode` alone. */
  function IsLeftOrRight(e: KeyEvent): (r: bool)
    ensures r <==> e.keyCode == KeyLeft || e.keyCode == KeyRight
  {
    ArrayIndexOf([KeyLeft, KeyRight], e.keyCode) > -1
  }

  /** The char code: `which` when defined, `keyCode` otherwise. */
  function CharCode(e: KeyEvent): (r: int)
    ensures e.which.Some? ==> r == e.which.value
    ensures e.which.None? ==> r == e.keyCode
  {
    match e.which
    case Some(w) => w
    case None => e.keyCode
  }

  /** The key as text: the `key` name when present, else the character of
      the char code. */
  function KeyString(e: KeyEvent): (r: JsString)
    ensures e.key != [] ==> r == e.key
    ensures e.key == [] ==> |r| == 1 && r[0] as int == CharCode(e) % 0x1_0000
  {
    if e.key != [] then e.key else FromCharCode(CharCode(e))
  }

  /** The key's text contains a decimal digit somewhere. */
  function IsKeyPressedNumeric(e: KeyEvent): (r: bool)
    ensures r <==> exists i :: 0 <= i < |KeyString(e)| && IsAsciiDigit(KeyString(e)[i])
  {
    TestDigit(KeyString(e))
  }

  /** Delete or Backspace, judged by the char code. */
  function DeleteOrBackspace(e: KeyEvent): (r: bool)
    ensures r <==> CharCode(e) in {KeyDelete, KeyBackspace}
  {
    var charCode := CharCode(e);
    charCode == KeyDelete || charCode == KeyBackspace
  }

  /** Enter, Tab or Esc, judged by the char code. */
  function FinishedEditingPressed(e: KeyEvent): (r: bool)
    ensures r <==> CharCode(e) in {KeyEnter, KeyTab, KeyEsc}
  {
    var charCode := CharCode(e);
    charCode == KeyEnter || charCode == KeyTab || charCode == KeyEsc
  }

  /** `onKeyDown`: arrows and deletion stay inside the editor; every other key
      that neither ends the edit nor carries a digit loses its default
      action; the rest go through untouched. */
  function KeyDownAction(e: KeyEvent): (a: KeyAction)
    ensures a == StopPropagation <==>
              e.keyCode in {KeyLeft, KeyRight} || CharCode(e) in {KeyDelete, KeyBackspace}
    ensures a == PreventDefault <==>
              && e.keyCode !in {KeyLeft, KeyRight}
              && CharCode(e) !in {KeyDelete, KeyBackspace, KeyEnter, KeyTab, KeyEsc}
              && forall i :: 0 <= i < |KeyString(e)| ==> !IsAsciiDigit(KeyString(e)[i])
  {
    if IsLeftOrRight(e) || DeleteOrBackspace(e) then StopPropagation
    else if !FinishedEditingPressed(e) && !IsKeyPressedNumeric(e) then PreventDefault
    else Allow
  }

  /** Without a `key` name the decision falls back on the char code, taken
      modulo 2^16 as `String.fromCharCode` does. */
  lemma FallbackKeyIsNumericIffDigitCode(e: KeyEvent)
    requires e.key == []
    ensures IsKeyPressedNumeric(e) <==> 48 <= CharCode(e) % 0x1_0000 <= 57
  {
    var s := KeyString(e);
    assert s == FromCharCode(CharCode(e));
    assert s[0] as int == CharCode(e) % 0x1_0000;
  }

  /** Because the digit test is unanchored, any key whose name contains a
      digit gets through: "F1" is not filtered, "Home" is. */
  lemma DigitInKeyNameIsNotFiltered()
    ensures KeyDownAction(KeyEvent(112, Some(112), [70, 49])) == Allow            // "F1"
    ensures KeyDownAction(KeyEvent(36, Some(36), [72, 111, 109, 101])) == PreventDefault  // "Home"
  {
    var f1: JsString := [70, 49];
    assert IsAsciiDigit(f1[1]);
  }

  // ---------------------------------------------------------------------
  // Editor state
  // ---------------------------------------------------------------------

  /** What the editor has done to the input's selection. */
  datatype Selection = Untouched | AllSelected | CaretAt(offset: nat)

  /** The editor instance: the start parameters it was given, its text
      buffer, whether the next attach selects everything, and the selection
      it last placed on the input. */
  class CellEditor {
    const params: StartParams
    var value: JsString
    var highlightAllOnFocus: bool
    var selection: Selection

    constructor (p: StartParams)
      ensures params == p
      ensures value == CreateInitialState(p).value
      ensures highlightAllOnFocus == CreateInitialState(p).highlightAllOnFocus
      ensures selection == Untouched
    {
      var initialState := CreateInitialState(p);
      params := p;
      value := initialState.value;
      highlightAllOnFocus := initialState.highlightAllOnFocus;
      selection := Untouched;
    }

    /** The first attach after a select-all start selects everything and
        spends the flag; otherwise the caret goes to the end of a non-empty
        buffer. Either way no later attach selects everything. */
    method AfterGuiAttached()
      modifies this`highlightAllOnFocus, this`selection
      ensures !highlightAllOnFocus
      ensures old(highlightAllOnFocus) ==> selection == AllSelected
      ensures !old(highlightAllOnFocus) && |value| > 0 ==> selection == CaretAt(|value|)
      ensures !old(highlightAllOnFocus) && |value| == 0 ==> selection == old(selection)
    {
      if highlightAllOnFocus {
        selection := AllSelected;
        highlightAllOnFocus := false;
      } else {
        var length := |value|;
        if length > 0 {
          selection := CaretAt(length);
        }
      }
    }

    /** The value handed back to the grid is the buffer, uncapped. */
    method GetValue() returns (r: JsString)
      ensures r == value
    {
      r := value;
    }

    /** The input's change event replaces the whole buffer. */
    method OnChange(text: JsString)
      modifies this`value
      ensures value == text
    {
      value := text;
    }

    method IsCancelBeforeStart() returns (r: bool)
      ensures r == CancelsBeforeStart(params.charPress)
    {
      r := CancelsBeforeStart(params.charPress);
    }

    /** The result of an edit is never thrown away. */
    method IsCancelAfterEnd() returns (r: bool)
      ensures !r
    {
      r := false;
    }
  }

  /** A session started by typing a digit: it is not refused, the attach puts
      the caret after the digit instead of selecting it, and the grid gets
      that digit back when nothing else was typed. */
  method DigitStartedSession(keyPress: Option<int>, d: CodeUnit, cellValue: JsString)
    returns (cancelled: bool, selection: Selection, result: JsString)
    requires !StartedByClearingKey(keyPress) && IsAsciiDigit(d)
    ensures !cancelled && selection == CaretAt(1) && result == [d]
  {
    var editor := new CellEditor(StartParams(keyPress, [d], cellValue));
    cancelled := editor.IsCancelBeforeStart();
    SingleCharCancelsIffNotDigit(d);
    editor.AfterGuiAttached();
    selection := editor.selection;
    result := editor.GetValue();
  }
}
