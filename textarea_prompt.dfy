/**
 * `TextareaPrompt` of web/textarea_prompt.js: the comment box with a
 * confirm and a cancel button. Its state is the text area's value and
 * selection and `preValue`, the value last confirmed or cancelled; the
 * callbacks it fires are recorded in order. Building the DOM in `init` is
 * not modelled beyond the value it puts in the text area.
 */
module Prompt {
  import opened Wrappers
  import opened JsText

  /** Where focus goes when the text area loses it (`relatedTarget`). */
  datatype FocusTarget = CancelButton | ConfirmButton | Elsewhere

  const EnterKeyCode := 13
  const DefaultMaxLength := 1000
  const DefaultPlaceholder := "限1000字"
  const DefaultConfirmButtonText := "评论"
  const DefaultCancelButtonText := "取消"

  /**
   * The text of Alt+Enter: `text.substring(0, start) + "\n" +
   * text.substring(end, text.length)`. For a selection inside `text` that is
   * the selection replaced by one line break.
   */
  function AltEnterText(text: string, start: int, end: int): (r: string)
    ensures 0 <= start <= end <= |text| ==>
      r == text[..start] + "\n" + text[end..]
      && |r| == |text| - (end - start) + 1
      && r[start] == '\n'
  {
    Substring(text, 0, start) + "\n" + Substring(text, end, |text|)
  }

  /**
   * What the prompt has reported so far: calls of `onFocus` and `onBlur`,
   * calls of `input.focus()`, and the arguments of `onChange`, `onConfirm`
   * and `onCancel` in call order.
   */
  datatype Log = Log(focusEvents: nat, blurEvents: nat, inputFocusCalls: nat,
                     changes: seq<string>, confirmed: seq<string>, cancelled: seq<string>)

  /** A constructor option: `None` when left undefined, so that its default applies. */
  function OrDefault<T>(option: Option<T>, default: T): (r: T)
    ensures option.None? ==> r == default
    ensures option.Some? ==> r == option.value
  {
    if option.None? then default else option.value
  }

  class TextareaPrompt {
    const defaultValue: string
    /** Written to the text area as the expando `maxlength`, so no limit is enforced. */
    const maxlength: int
    const placeholder: string
    const confirmButtonText: string
    const cancelButtonText: string
    /** Whether each callback is truthy (the defaults are no-op functions, so they are). */
    const hasOnFocus: bool
    const hasOnBlur: bool
    const hasOnChange: bool
    const hasOnCancel: bool
    const hasOnConfirm: bool

    var preValue: string
    /** `input.value`. */
    var value: string
    var selectionStart: nat
    var selectionEnd: nat
    /** Whether the input and buttons are referenced and listening; `destroy` clears them. */
    var attached: bool
    /** Whether the container is still a child of the parent element. */
    var containerInParent: bool
    var log: Log

    /** The selection lies inside the value. */
    predicate Valid()
      reads this
    {
      selectionStart <= selectionEnd <= |value|
    }

    /**
     * Options left undefined take their defaults; the given value is both the
     * text area's content and `preValue`. A callback passed as `Some(b)` is
     * present exactly when `b` (its truthiness) holds.
     */
    constructor(value: Option<string>, maxlength: Option<int>, placeholder: Option<string>,
                confirmButtonText: Option<string>, cancelButtonText: Option<string>,
                onFocus: Option<bool>, onBlur: Option<bool>, onChange: Option<bool>,
                onCancel: Option<bool>, onConfirm: Option<bool>)
      ensures Valid() && attached && containerInParent
      ensures defaultValue == OrDefault(value, "") && preValue == defaultValue && this.value == defaultValue
      ensures selectionStart == selectionEnd == |defaultValue|
      ensures this.maxlength == OrDefault(maxlength, DefaultMaxLength)
      ensures this.placeholder == OrDefault(placeholder, DefaultPlaceholder)
      ensures this.confirmButtonText == OrDefault(confirmButtonText, DefaultConfirmButtonText)
      ensures this.cancelButtonText == OrDefault(cancelButtonText, DefaultCancelButtonText)
      ensures hasOnFocus == OrDefault(onFocus, true) && hasOnBlur == OrDefault(onBlur, true)
      ensures hasOnChange == OrDefault(onChange, true) && hasOnCancel == OrDefault(onCancel, true)
      ensures hasOnConfirm == OrDefault(onConfirm, true)
      ensures log == Log(0, 0, 1, [], [], [])
    {
      defaultValue := OrDefault(value, "");
      preValue := OrDefault(value, "");
      this.maxlength := OrDefault(maxlength, DefaultMaxLength);
      this.placeholder := OrDefault(placeholder, DefaultPlaceholder);
      this.confirmButtonText := OrDefault(confirmButtonText, DefaultConfirmButtonText);
      this.cancelButtonText := OrDefault(cancelButtonText, DefaultCancelButtonText);
      hasOnFocus := OrDefault(onFocus, true);
      hasOnBlur := OrDefault(onBlur, true);
      hasOnChange := OrDefault(onChange, true);
      hasOnCancel := OrDefault(onCancel, true);
      hasOnConfirm := OrDefault(onConfirm, true);
      // init: the text area shows the default value, with the cursor after it, and takes focus
      this.value := OrDefault(value, "");
      selectionStart := |OrDefault(value, "")|;
      selectionEnd := |OrDefault(value, "")|;
      attached := true;
      containerInParent := true;
      log := Log(0, 0, 1, [], [], []);
    }

    /**
     * Stops listening, drops the element references and takes the container
     * out of its parent when it is still there. A second call finds the
     * references gone and fails with a TypeError before changing anything.
     */
    method Destroy() returns (outcome: Completion)
      modifies this
      ensures outcome == TypeError <==> !old(attached)
      ensures !attached && containerInParent == (old(containerInParent) && !old(attached))
      ensures value == old(value) && selectionStart == old(selectionStart) && selectionEnd == old(selectionEnd)
      ensures preValue == old(preValue) && log == old(log)
    {
      if !attached {
        return TypeError;
      }
      attached := false;
      if containerInParent {
        containerInParent := false;
      }
      return Normal;
    }

    /** Reports the focus to `onFocus` when there is one. */
    method OnFocus()
      requires attached
      modifies this
      ensures log == old(log).(focusEvents := old(log.focusEvents) + if hasOnFocus then 1 else 0)
      ensures value == old(value) && selectionStart == old(selectionStart) && selectionEnd == old(selectionEnd)
      ensures preValue == old(preValue) && attached && containerInParent == old(containerInParent)
    {
      if hasOnFocus {
        log := log.(focusEvents := log.focusEvents + 1);
      }
    }

    /** Focus moving to one of the prompt's buttons is taken back and is not reported as a blur. */
    method OnBlur(relatedTarget: FocusTarget)
      requires attached
      modifies this
      ensures relatedTarget != Elsewhere ==>
        log == old(log).(inputFocusCalls := old(log.inputFocusCalls) + 1)
      ensures relatedTarget == Elsewhere ==>
        log == old(log).(blurEvents := old(log.blurEvents) + if hasOnBlur then 1 else 0)
      ensures value == old(value) && selectionStart == old(selectionStart) && selectionEnd == old(selectionEnd)
      ensures preValue == old(preValue) && attached && containerInParent == old(containerInParent)
    {
      if relatedTarget == CancelButton || relatedTarget == ConfirmButton {
        log := log.(inputFocusCalls := log.inputFocusCalls + 1);
        return;
      }
      if hasOnBlur {
        log := log.(blurEvents := log.blurEvents + 1);
      }
    }

    /** Reports the current value to `onChange`. */
    method OnChange()
      requires attached
      modifies this
      ensures log == old(log).(changes := old(log.changes) + if hasOnChange then [value] else [])
      ensures value == old(value) && selectionStart == old(selectionStart) && selectionEnd == old(selectionEnd)
      ensures preValue == old(preValue) && attached && containerInParent == old(containerInParent)
    {
      if hasOnChange {
        log := log.(changes := log.changes + [value]);
      }
    }

    /**
     * Assigning `input.value`: a changed value puts the cursor after its last
     * character; assigning the same value changes nothing.
     */
    method SetValue(v: string)
      requires Valid()
      modifies this
      ensures Valid() && value == v
      ensures v != old(value) ==> selectionStart == |v| && selectionEnd == |v|
      ensures v == old(value) ==> selectionStart == old(selectionStart) && selectionEnd == old(selectionEnd)
      ensures preValue == old(preValue) && attached == old(attached) && containerInParent == old(containerInParent)
      ensures log == old(log)
    {
      if v != value {
        value := v;
        selectionStart := |v|;
        selectionEnd := |v|;
      }
    }

    /**
     * The confirm button: an empty text area only takes focus back; otherwise
     * its value becomes `preValue`, the text area is cleared and `onConfirm`
     * gets the value it held.
     */
    method OnConfirm()
      requires attached && Valid()
      modifies this
      ensures Valid() && attached && containerInParent == old(containerInParent)
      ensures old(value) == "" ==>
        value == old(value) && selectionStart == old(selectionStart) && selectionEnd == old(selectionEnd)
        && preValue == old(preValue) && log == old(log).(inputFocusCalls := old(log.inputFocusCalls) + 1)
      ensures old(value) != "" ==>
        preValue == old(value) && value == "" && selectionStart == 0 && selectionEnd == 0
        && log == old(log).(confirmed := old(log.confirmed) + if hasOnConfirm then [old(value)] else [])
    {
      if value == "" {
        log := log.(inputFocusCalls := log.inputFocusCalls + 1);
        return;
      }
      var v := value;
      preValue := v;
      SetValue("");
      if hasOnConfirm {
        log := log.(confirmed := log.confirmed + [v]);
      }
    }

    /**
     * The cancel button: whatever the text area holds, even nothing, becomes
     * `preValue`, the text area is cleared and `onCancel` gets the value it held.
     */
    method OnCancel()
      requires attached && Valid()
      modifies this
      ensures Valid() && attached && containerInParent == old(containerInParent)
      ensures preValue == old(value) && value == ""
      ensures old(value) != "" ==> selectionStart == 0 && selectionEnd == 0
      ensures old(value) == "" ==> selectionStart == old(selectionStart) && selectionEnd == old(selectionEnd)
      ensures log == old(log).(cancelled := old(log.cancelled) + if hasOnCancel then [old(value)] else [])
    {
      var v := value;
      preValue := v;
      SetValue("");
      if hasOnCancel {
        log := log.(cancelled := log.cancelled + [v]);
      }
    }

    /**
     * A key press. Alt+Enter replaces the selection with a line break in
     * `text` (the event's `value`, `None` when the event has none, in which
     * case the call fails with a TypeError) and puts the cursor after it;
     * Enter alone cancels when `text` is still `preValue` and confirms
     * otherwise; any other key does nothing.
     */
    method OnKeyDown(keyCode: int, altKey: bool, text: Option<string>) returns (outcome: Completion)
      requires attached && Valid()
      modifies this
      ensures Valid() && attached && containerInParent == old(containerInParent)
      ensures outcome == TypeError <==> keyCode == EnterKeyCode && altKey && text.None?
      ensures outcome == TypeError || keyCode != EnterKeyCode ==>
        value == old(value) && preValue == old(preValue) && selectionStart == old(selectionStart)
        && selectionEnd == old(selectionEnd) && log == old(log)
      ensures keyCode == EnterKeyCode && altKey && text.Some? ==>
        var newText := AltEnterText(text.value, old(selectionStart), old(selectionEnd));
        value == newText && preValue == old(preValue)
        && selectionStart == selectionEnd == Clamp(old(selectionStart) + 1, |newText|)
        && log == old(log)
      ensures keyCode == EnterKeyCode && !altKey && text == Some(old(preValue)) ==>
        preValue == old(value) && value == ""
        && (old(value) != "" ==> selectionStart == 0 && selectionEnd == 0)
        && (old(value) == "" ==> selectionStart == old(selectionStart) && selectionEnd == old(selectionEnd))
        && log == old(log).(cancelled := old(log.cancelled) + if hasOnCancel then [old(value)] else [])
      ensures keyCode == EnterKeyCode && !altKey && text != Some(old(preValue)) ==>
        (old(value) == "" ==>
           value == old(value) && selectionStart == old(selectionStart) && selectionEnd == old(selectionEnd)
           && preValue == old(preValue) && log == old(log).(inputFocusCalls := old(log.inputFocusCalls) + 1))
        && (old(value) != "" ==>
              preValue == old(value) && value == "" && selectionStart == 0 && selectionEnd == 0
              && log == old(log).(confirmed := old(log.confirmed) + if hasOnConfirm then [old(value)] else []))
    {
      var enter := keyCode == EnterKeyCode;
      if enter && altKey {
        if text.None? {
          return TypeError;
        }
        var start := selectionStart;
        var end := selectionEnd;
        var newText := AltEnterText(text.value, start, end);
        var endIndex := start + 1;
        SetValue(newText);
        SetSelectionStart(endIndex);
        SetSelectionEnd(endIndex);
      } else if enter {
        if text == Some(preValue) {
          OnCancel();
          return Normal;
        }
        OnConfirm();
      }
      return Normal;
    }

    /** Assigning `selectionStart`: clamped to the value, and the end follows when it falls behind. */
    method SetSelectionStart(s: nat)
      requires Valid()
      modifies this
      ensures Valid()
      ensures selectionStart == Clamp(s, |value|)
      ensures selectionEnd == if old(selectionEnd) < selectionStart then selectionStart else old(selectionEnd)
      ensures value == old(value) && preValue == old(preValue) && log == old(log)
      ensures attached == old(attached) && containerInParent == old(containerInParent)
    {
      selectionStart := Clamp(s, |value|);
      if selectionEnd < selectionStart {
        selectionEnd := selectionStart;
      }
    }

    /** Assigning `selectionEnd`: clamped to the value, and the start follows when it is ahead. */
    method SetSelectionEnd(e: nat)
      requires Valid()
      modifies this
      ensures Valid()
      ensures selectionEnd == Clamp(e, |value|)
      ensures selectionStart == if old(selectionStart) > selectionEnd then selectionEnd else old(selectionStart)
      ensures value == old(value) && preValue == old(preValue) && log == old(log)
      ensures attached == old(attached) && containerInParent == old(containerInParent)
    {
      selectionEnd := Clamp(e, |value|);
      if selectionStart > selectionEnd {
        selectionStart := selectionEnd;
      }
    }
  }
}
