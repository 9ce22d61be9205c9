/**
  The chat input box (ChatOverlay): while open it collects typed text up to
  120 characters; Return submits the stripped text and clears the box, Escape
  closes it and discards the text.
*/
module ChatOverlays {
  import opened Wrappers
  import opened TextInput

  /** The longest text the chat box accepts from single-character typing. */
  const ChatLimit: nat := 120

  class ChatOverlay {
    var isOpen: bool
    var text: string

    constructor ()
      ensures !isOpen && text == ""
    {
      isOpen := false;
      text := "";
    }

    method Open()
      modifies this
      ensures isOpen && text == ""
    {
      isOpen := true;
      text := "";
    }

    method Close()
      modifies this
      ensures !isOpen && text == ""
    {
      isOpen := false;
      text := "";
    }

    /** Handles one event; returns the message to send, if any. */
    method HandleEvent(e: Event) returns (out: Option<string>)
      modifies this
      ensures !old(isOpen) || e.OtherEvent? ==> out == None && unchanged(this)
      ensures old(isOpen) && e.KeyDown? ==> match e.key
        case Escape => out == None && !isOpen && text == ""
        case Return =>
          && isOpen && text == ""
          && out == (if Strip(old(text)) != "" then Some(Strip(old(text))) else None)
        case Backspace => out == None && isOpen && text == DropLast(old(text))
        case OtherKey => out == None && isOpen && text == Typed(old(text), e.unicode, ChatLimit)
      ensures out.Some? ==> out.value != "" && out.value == Strip(old(text))
      ensures |old(text)| <= ChatLimit && (e.KeyDown? ==> |e.unicode| <= 1) ==> |text| <= ChatLimit
    {
      if !isOpen {
        return None;
      }
      if e.KeyDown? {
        if e.key == Escape {
          Close();
          return None;
        }
        if e.key == Return {
          var stripped := Strip(text);
          text := "";
          if stripped != "" {
            return Some(stripped);
          }
          return None;
        }
        if e.key == Backspace {
          text := DropLast(text);
          return None;
        }
        if e.unicode != "" && IsPrintable(e.unicode) {
          if |text| < ChatLimit {
            text := text + e.unicode;
          }
        }
      }
      return None;
    }
  }
}
