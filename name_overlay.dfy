/**
  The name prompt (NameOverlay): while open it collects typed text up to 18
  characters; Return offers the stripped text without clearing or closing,
  Escape closes the prompt and keeps the text.
*/
module NameOverlays {
  import opened Wrappers
  import opened TextInput

  /** The longest name single-character typing can produce. */
  const NameLimit: nat := 18

  class NameOverlay {
    var isOpen: bool
    var text: string

    constructor ()
      ensures !isOpen && text == ""
    {
      isOpen := false;
      text := "";
    }

    method Open()
      modifies this
      ensures isOpen && text == ""
    {
      isOpen := true;
      text := "";
    }

    /** Closing keeps the text typed so far. */
    method Close()
      modifies this
      ensures !isOpen && text == old(text)
    {
      isOpen := false;
    }

    /** Handles one event; returns the entered name, if any. */
    method HandleEvent(e: Event) returns (out: Option<string>)
      modifies this
      ensures !old(isOpen) || e.OtherEvent? ==> out == None && unchanged(this)
      ensures old(isOpen) && e.KeyDown? ==> match e.key
        case Escape => out == None && !isOpen && text == old(text)
        case Return =>
          && isOpen && text == old(text)
          && out == (if Strip(old(text)) != "" then Some(Strip(old(text))) else None)
        case Backspace => out == None && isOpen && text == DropLast(old(text))
        case OtherKey => out == None && isOpen && text == Typed(old(text), e.unicode, NameLimit)
      ensures out.Some? ==> out.value != "" && out.value == Strip(old(text))
      ensures |old(text)| <= NameLimit && (e.KeyDown? ==> |e.unicode| <= 1) ==> |text| <= NameLimit
    {
      if !isOpen {
        return None;
      }
      if !e.KeyDown? {
        return None;
      }
      if e.key == Escape {
        Close();
        return None;
      }
      if e.key == Return {
        var stripped := Strip(text);
        return if stripped != "" then Some(stripped) else None;
      }
      if e.key == Backspace {
        text := DropLast(text);
        return None;
      }
      if e.unicode != "" && IsPrintable(e.unicode) {
        if |text| < NameLimit {
          text := text + e.unicode;
        }
      }
      return None;
    }
  }
}
