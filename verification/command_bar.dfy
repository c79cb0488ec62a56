/**
  The command bar's own state: the input height that follows the number of
  lines typed, when the send button is enabled, how the (currently hidden)
  spin and think toggles map to and from the agent mode, and `resetState`.
 */
module CommandBar {
  import opened Text
  import ChatMessages

  type AgentMode = ChatMessages.AgentMode

  datatype CommandBarState = CommandBarState(
    text: string,
    mode: AgentMode,
    isLoading: bool,
    spinActive: bool,
    thinkActive: bool,
    showAttachmentSheet: bool,
    textHeight: int)

  /** `components(separatedBy: "\n").count`: one more segment than there are line feeds. */
  function LineCount(text: string): (n: nat)
    ensures n >= 1
  {
    Count(text, '\n') + 1
  }

  lemma {:induction false} CountAppend(a: string, b: string, c: char)
    ensures Count(a + b, c) == Count(a, c) + Count(b, c)
  {
    if a != [] {
      assert (a + b)[1..] == a[1..] + b;
      CountAppend(a[1..], b, c);
    } else {
      assert a + b == b;
    }
  }

  /** Height for a number of lines: 20 points a line plus 20 of padding, at most 120. */
  function HeightForLines(lines: int): (h: int)
  {
    var lineCount := if lines > 1 then lines else 1;
    var height := lineCount * 20 + 20;
    if height < 120 then height else 120
  }

  /** The height the text editor takes after its text changes. */
  function TextHeight(text: string): (h: int)
    ensures 40 <= h <= 120
    ensures h == 40 <==> '\n' !in text
    ensures Count(text, '\n') >= 4 <==> h == 120
  {
    CountZeroIff(text, '\n');
    HeightForLines(LineCount(text))
  }

  lemma {:induction false} CountZeroIff(s: string, c: char)
    ensures Count(s, c) == 0 <==> c !in s
  {
    if s != [] {
      CountZeroIff(s[1..], c);
      assert c in s <==> s[0] == c || c in s[1..];
    }
  }

  /** More lines never give a smaller editor. */
  lemma HeightMonotone(a: int, b: int)
    requires a <= b
    ensures HeightForLines(a) <= HeightForLines(b)
  {
  }

  /** Typing more text never shrinks the editor. */
  lemma TypingNeverShrinks(text: string, more: string)
    ensures TextHeight(text) <= TextHeight(text + more)
  {
    CountAppend(text, more, '\n');
    HeightMonotone(LineCount(text), LineCount(text + more));
  }

  /** `.onChange(of: text)`: the new text and its height. */
  function TextChanged(s: CommandBarState, text: string): (t: CommandBarState)
    ensures t.text == text && t.textHeight == TextHeight(text)
    ensures t.(text := s.text, textHeight := s.textHeight) == s
  {
    s.(text := text, textHeight := TextHeight(text))
  }

  /** The send button is enabled when the text has something besides whitespace and newlines. */
  function SendEnabled(text: string): (enabled: bool)
    ensures enabled <==> exists i :: 0 <= i < |text| && !IsWhitespace(text[i])
  {
    TrimWhitespaceEmptyIffBlank(text);
    TrimWhitespace(text) != []
  }

  /** `updateMode`: the spin toggle wins over the think toggle; neither gives the main mode. */
  function UpdateMode(s: CommandBarState): (t: CommandBarState)
    ensures t.(mode := s.mode) == s
    ensures t.mode == ChatMessages.Spin <==> s.spinActive
    ensures t.mode == ChatMessages.Think <==> !s.spinActive && s.thinkActive
    ensures t.mode == ChatMessages.Main <==> !s.spinActive && !s.thinkActive
  {
    s.(mode := if s.spinActive then ChatMessages.Spin
               else if s.thinkActive then ChatMessages.Think
               else ChatMessages.Main)
  }

  /** `updateUIFromMode`: each mode lights at most its own toggle. */
  function UpdateUIFromMode(s: CommandBarState): (t: CommandBarState)
    ensures t.(spinActive := s.spinActive, thinkActive := s.thinkActive) == s
    ensures !(t.spinActive && t.thinkActive)
    ensures t.spinActive <==> s.mode == ChatMessages.Spin
    ensures t.thinkActive <==> s.mode == ChatMessages.Think
  {
    match s.mode
    case Spin => s.(spinActive := true, thinkActive := false)
    case Think => s.(spinActive := false, thinkActive := true)
    case Main => s.(spinActive := false, thinkActive := false)
  }

  /** Reading the toggles back after showing a mode gives the same mode and changes nothing. */
  lemma ModeRoundTrip(s: CommandBarState)
    ensures UpdateMode(UpdateUIFromMode(s)).mode == s.mode
    ensures UpdateMode(UpdateUIFromMode(s)) == UpdateUIFromMode(s)
  {
  }

  /**
    The other way round, showing the mode the toggles select gives the
    toggles back exactly when they were not both on.
   */
  lemma TogglesRoundTrip(s: CommandBarState)
    ensures UpdateUIFromMode(UpdateMode(s)) == UpdateMode(s) <==> !(s.spinActive && s.thinkActive)
  {
  }

  /** `resetState`: empty one-line input in the main mode, toggles off, not loading, sheet closed. */
  function ResetState(s: CommandBarState): (t: CommandBarState)
    ensures t.text == [] && t.textHeight == 40
    ensures t.mode == ChatMessages.Main && !t.spinActive && !t.thinkActive
    ensures !t.isLoading && !t.showAttachmentSheet
  {
    CommandBarState("", ChatMessages.Main, false, false, false, false, 40)
  }

  /** After a reset the height is the one the empty text calls for and the toggles agree with the mode. */
  lemma ResetIsConsistent(s: CommandBarState)
    ensures var t := ResetState(s);
            t.textHeight == TextHeight(t.text) && UpdateUIFromMode(t) == t && UpdateMode(t) == t
  {
  }
}
