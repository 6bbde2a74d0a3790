/**
 * The message input box: one text field, a submit handler guarded by the trimmed text and the
 * `disabled` flag, an Enter-key handler, and the enabled state of the send button.
 */
module Input {
  import opened Wrappers

  /**
   * The characters JavaScript's `String.prototype.trim` removes: the WhiteSpace code points
   * (tab, vertical tab, form feed, the byte order mark and every space separator) and the
   * LineTerminator code points (line feed, carriage return, line and paragraph separators).
   */
  const SpaceChars: set<char> := {
    '\U{0009}', '\U{000A}', '\U{000B}', '\U{000C}', '\U{000D}', ' ', '\U{00A0}', '\U{1680}',
    '\U{2000}', '\U{2001}', '\U{2002}', '\U{2003}', '\U{2004}', '\U{2005}', '\U{2006}',
    '\U{2007}', '\U{2008}', '\U{2009}', '\U{200A}', '\U{2028}', '\U{2029}', '\U{202F}',
    '\U{205F}', '\U{3000}', '\U{FEFF}'
  }

  /** Whether `trim` removes the character `c`. */
  function IsSpace(c: char): (space: bool)
    ensures space ==> c as int < 0x10000
    ensures c as int < 0x80 ==> (space <==> c == ' ' || (0x09 <= c as int <= 0x0D))
  {
    c in SpaceChars
  }

  /**
   * Where the text of `s` starts, looking from `i` on: the first position at or after `i` that
   * does not hold white space, or the end of `s`.
   */
  function SpanStart(s: string, i: nat): (k: nat)
    requires i <= |s|
    ensures i <= k <= |s|
    ensures forall j :: i <= j < k ==> IsSpace(s[j])
    ensures k < |s| ==> !IsSpace(s[k])
    decreases |s| - i
  {
    if i < |s| && IsSpace(s[i]) then SpanStart(s, i + 1) else i
  }

  /**
   * Where the text of `s[lo..hi]` ends: the position after its last character that is not white
   * space, or `lo` when there is none.
   */
  function SpanEnd(s: string, lo: nat, hi: nat): (k: nat)
    requires lo <= hi <= |s|
    ensures lo <= k <= hi
    ensures forall j :: k <= j < hi ==> IsSpace(s[j])
    ensures k > lo ==> !IsSpace(s[k - 1])
    decreases hi
  {
    if hi > lo && IsSpace(s[hi - 1]) then SpanEnd(s, lo, hi - 1) else hi
  }

  /** How many characters `trim` drops at the front of `s`. */
  function LeadingSpace(s: string): nat
  {
    SpanStart(s, 0)
  }

  /**
   * `s.trim()`: the infix of `s` left after dropping white space at both ends. It has no white
   * space at either end, and it is empty exactly when `s` is white space only.
   */
  function Trim(s: string): (r: string)
    ensures LeadingSpace(s) + |r| <= |s| && r == s[LeadingSpace(s)..LeadingSpace(s) + |r|]
    ensures forall i :: 0 <= i < LeadingSpace(s) ==> IsSpace(s[i])
    ensures forall i :: LeadingSpace(s) + |r| <= i < |s| ==> IsSpace(s[i])
    ensures r == [] || (!IsSpace(r[0]) && !IsSpace(r[|r| - 1]))
    ensures r == [] <==> forall i :: 0 <= i < |s| ==> IsSpace(s[i])
  {
    var lo := SpanStart(s, 0);
    var hi := SpanEnd(s, lo, |s|);
    assert hi > lo ==> s[lo..hi][0] == s[lo] && s[lo..hi][hi - lo - 1] == s[hi - 1];
    s[lo..hi]
  }

  /** Trimming twice is trimming once. */
  lemma TrimIdempotent(s: string)
    ensures Trim(Trim(s)) == Trim(s)
  {
  }

  /**
   * What a submit sends: the trimmed text, when it is not empty and the box is not disabled;
   * otherwise nothing. What is sent never starts or ends with white space.
   */
  function SubmitDecision(input: string, disabled: bool): (sent: Option<string>)
    ensures sent.Some? <==> !disabled && exists i :: 0 <= i < |input| && !IsSpace(input[i])
    ensures sent.Some? ==> sent.value == Trim(input)
    ensures sent.Some? ==> sent.value != [] && !IsSpace(sent.value[0]) && !IsSpace(sent.value[|sent.value| - 1])
  {
    var trimmed := Trim(input);
    if trimmed != [] && !disabled then Some(trimmed) else None
  }

  /** The text left in the box after a submit: cleared when something was sent, kept otherwise. */
  function AfterSubmit(input: string, disabled: bool): (next: string)
    ensures next == "" || next == input
    ensures next == "" <==> input == "" || SubmitDecision(input, disabled).Some?
  {
    if SubmitDecision(input, disabled).Some? then "" else input
  }

  /** Two submits in a row send at most once, because a send empties the box. */
  lemma SubmitTwiceSendsAtMostOnce(input: string, disabled: bool)
    ensures SubmitDecision(input, disabled).Some? ==> SubmitDecision(AfterSubmit(input, disabled), disabled) == None
    ensures SubmitDecision(input, disabled).None? ==> AfterSubmit(input, disabled) == input
  {
  }

  /** A key press in the text area. */
  datatype KeyEvent = KeyEvent(key: string, shiftKey: bool)

  /** Whether a key press submits (and suppresses the new line): Enter without Shift. */
  function SubmitsOnKey(e: KeyEvent): (submits: bool)
    ensures submits <==> e.key == "Enter" && !e.shiftKey
  {
    e.key == "Enter" && !e.shiftKey
  }

  /**
   * Whether the send button is disabled: the trimmed text is empty or the box is disabled, which
   * is exactly when a submit would send nothing.
   */
  function ButtonDisabled(input: string, disabled: bool): (off: bool)
    ensures off <==> SubmitDecision(input, disabled).None?
    ensures off <==> disabled || forall i :: 0 <= i < |input| ==> IsSpace(input[i])
  {
    Trim(input) == [] || disabled
  }

  /** The input box; `input` is its controlled text value. */
  class ChatInput {
    var input: string

    /** A new box is empty. */
    constructor ()
      ensures input == ""
    {
      input := "";
    }

    /** The text area's change handler: the box holds what the user typed. */
    method Change(value: string)
      modifies this
      ensures input == value
    {
      input := value;
    }

    /**
     * The submit handler: sends the trimmed text when it is not empty and the box is not
     * disabled, then empties the box; otherwise sends nothing and keeps the text.
     */
    method HandleSubmit(disabled: bool) returns (sent: Option<string>)
      modifies this
      ensures sent == SubmitDecision(old(input), disabled)
      ensures input == AfterSubmit(old(input), disabled)
    {
      var trimmed := Trim(input);
      if trimmed != [] && !disabled {
        sent := Some(trimmed);
        input := "";
      } else {
        sent := None;
      }
    }

    /**
     * The key handler: Enter without Shift suppresses the default new line and submits; any other
     * key is left to the text area and changes nothing here.
     */
    method HandleKeyDown(e: KeyEvent, disabled: bool) returns (prevented: bool, sent: Option<string>)
      modifies this
      ensures prevented <==> e.key == "Enter" && !e.shiftKey
      ensures prevented ==> sent == SubmitDecision(old(input), disabled) && input == AfterSubmit(old(input), disabled)
      ensures !prevented ==> sent == None && input == old(input)
    {
      prevented := SubmitsOnKey(e);
      if prevented {
        sent := HandleSubmit(disabled);
      } else {
        sent := None;
      }
    }

    /** The send button's `disabled` attribute for the current text. */
    function SendButtonDisabled(disabled: bool): (off: bool)
      reads this
      ensures off <==> SubmitDecision(input, disabled).None?
    {
      ButtonDisabled(input, disabled)
    }
  }
}
