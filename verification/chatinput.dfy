/**
 * The message box under the conversation: a text buffer that is trimmed and
 * handed to `onSend` on submit, then cleared, unless the box is disabled or
 * holds only white space. `disabled` is the component's prop; the calls to
 * `onSend` are recorded in the order they happen.
 */
module ChatInputBox {

  /** The characters `String.prototype.trim` removes: the ECMAScript white space and line terminators. */
  predicate IsSpace(c: char)
  {
    || c == '\t' || c == '\n' || c == '\U{000B}' || c == '\U{000C}' || c == '\r' || c == ' '
    || c == '\U{00A0}' || c == '\U{1680}' || ('\U{2000}' <= c <= '\U{200A}')
    || c == '\U{2028}' || c == '\U{2029}' || c == '\U{202F}' || c == '\U{205F}' || c == '\U{3000}' || c == '\U{FEFF}'
  }

  predicate AllSpace(s: string)
  {
    forall i :: 0 <= i < |s| ==> IsSpace(s[i])
  }

  /** The number of white-space characters the text starts with. */
  function Leading(s: string): (n: nat)
    ensures n <= |s|
    ensures forall i :: 0 <= i < n ==> IsSpace(s[i])
    ensures n < |s| ==> !IsSpace(s[n])
    decreases |s|
  {
    if s != [] && IsSpace(s[0]) then 1 + Leading(s[1..]) else 0
  }

  /** Where the white space the text ends with begins. */
  function Trailing(s: string): (m: nat)
    ensures m <= |s|
    ensures forall i :: m <= i < |s| ==> IsSpace(s[i])
    ensures 0 < m ==> !IsSpace(s[m - 1])
    decreases |s|
  {
    if s != [] && IsSpace(s[|s| - 1]) then Trailing(s[..|s| - 1]) else |s|
  }

  /** `s.trim()`: the text without its leading and its trailing white space. */
  function Trim(s: string): (r: string)
  {
    var t := s[Leading(s)..];
    t[..Trailing(t)]
  }

  /**
   * What trimming keeps: a slice of the text, with only white space cut off
   * either end, and starting and ending with a character that is not white space.
   */
  lemma TrimSlice(s: string)
    ensures var r := Trim(s);
      exists i, j :: 0 <= i <= j <= |s| && r == s[i..j] && AllSpace(s[..i]) && AllSpace(s[j..])
    ensures Trim(s) == [] || (!IsSpace(Trim(s)[0]) && !IsSpace(Trim(s)[|Trim(s)| - 1]))
  {
    var i := Leading(s);
    var t := s[i..];
    var m := Trailing(t);
    var j := i + m;
    assert Trim(s) == s[i..j];
    assert AllSpace(s[..i]);
    assert AllSpace(s[j..]) by {
      assert forall k :: 0 <= k < |s| - j ==> s[j..][k] == t[m + k];
    }
    assert m > 0 ==> !IsSpace(Trim(s)[0]) by {
      if m > 0 {
        assert t[0] == s[i];
      }
    }
  }

  /** The trimmed text is empty exactly when the text is all white space. */
  lemma TrimEmptyIff(s: string)
    ensures Trim(s) == [] <==> AllSpace(s)
  {
    var i := Leading(s);
    if i < |s| {
      var t := s[i..];
      assert t[0] == s[i];
    }
  }

  /** Trimming twice is trimming once. */
  lemma TrimIdempotent(s: string)
    ensures Trim(Trim(s)) == Trim(s)
  {
    var r := Trim(s);
    TrimSlice(s);
    if r != [] {
      assert Leading(r) == 0 && r[0..] == r;
      assert Trailing(r) == |r| && r[..|r|] == r;
    }
  }

  class ChatInput {
    /** The `message` state: the text in the box. */
    var message: string
    /** The texts passed to `onSend`, in order. */
    var sent: seq<string>

    constructor ()
      ensures message == "" && sent == []
    {
      message, sent := "", [];
    }

    /** The box's `onChange`: the buffer becomes what was typed. */
    method Edit(text: string)
      modifies this
      ensures message == text && sent == old(sent)
    {
      message := text;
    }

    /** The send button's `disabled`: the box is disabled or the trimmed text is empty. */
    function SendDisabled(disabled: bool): (r: bool)
      reads this
      ensures r <==> disabled || AllSpace(message)
    {
      TrimEmptyIff(message);
      disabled || Trim(message) == ""
    }

    /** `handleSubmit`: a non-empty trimmed text is sent and the buffer cleared, unless the box is disabled. */
    method HandleSubmit(disabled: bool)
      modifies this
      ensures !old(SendDisabled(disabled)) ==> sent == old(sent) + [Trim(old(message))] && message == ""
      ensures old(SendDisabled(disabled)) ==> sent == old(sent) && message == old(message)
    {
      var trimmed := Trim(message);
      if trimmed != "" && !disabled {
        sent := sent + [trimmed];
        message := "";
      }
    }

    /** `handleKeyDown`: Enter without Shift prevents the line break and submits; any other key does nothing here. */
    method HandleKeyDown(key: string, shift: bool, disabled: bool) returns (prevented: bool)
      modifies this
      ensures prevented <==> key == "Enter" && !shift
      ensures prevented && !old(SendDisabled(disabled)) ==> sent == old(sent) + [Trim(old(message))] && message == ""
      ensures !prevented || old(SendDisabled(disabled)) ==> sent == old(sent) && message == old(message)
    {
      prevented := false;
      if key == "Enter" && !shift {
        prevented := true;
        HandleSubmit(disabled);
      }
    }
  }

  /** What is sent never starts or ends with white space, is never empty, and trimming it again changes nothing. */
  lemma SentIsTrimmed(message: string)
    requires !AllSpace(message)
    ensures Trim(message) != [] && Trim(Trim(message)) == Trim(message)
    ensures !IsSpace(Trim(message)[0]) && !IsSpace(Trim(message)[|Trim(message)| - 1])
  {
    TrimEmptyIff(message);
    TrimSlice(message);
    TrimIdempotent(message);
  }
}
