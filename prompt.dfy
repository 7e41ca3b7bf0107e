/**
 * The key and selection logic of the prompt view (`views/4_PromptComponent.ts`):
 * which key an event is bound to, moving the highlighted suggestion, deleting
 * the last word, executing a non-empty command, accepting a suggestion, and
 * when the suggestion list is shown.
 *
 * The prompt model behind the view is reduced to its text buffer; its
 * tokenizer (`expanded`) and `replaceCurrentLexeme` are not part of this model
 * and arrive as parameters. The DOM caret is the recorded `caretPosition`.
 */
module Prompts {
  import opened Wrappers
  import opened Seqs
  import opened Text

  datatype KeyEvent = KeyEvent(keyCode: int, ctrlKey: bool, altKey: bool, metaKey: bool)

  /** The entries of the `keys` table. */
  datatype Key = GoUp | GoDown | Enter | Tab | DeleteWord | Interrupt

  /** The matcher the `keys` table holds for each key. */
  function Matches(key: Key, event: KeyEvent): (r: bool)
    ensures r ==> event.keyCode in {38, 40, 13, 9, 80, 78, 87, 67}
    ensures r && (key == DeleteWord || key == Interrupt) ==> event.ctrlKey
    ensures r && (event.keyCode == 80 || event.keyCode == 78) ==> event.ctrlKey
  {
    match key
    case GoUp => (event.ctrlKey && event.keyCode == 80) || event.keyCode == 38
    case GoDown => (event.ctrlKey && event.keyCode == 78) || event.keyCode == 40
    case Enter => event.keyCode == 13
    case Tab => event.keyCode == 9
    case DeleteWord => event.ctrlKey && event.keyCode == 87
    case Interrupt => event.ctrlKey && event.keyCode == 67
  }

  /**
   * The key an event is bound to. At most one matcher accepts any event, so
   * the answer is unique; `isDefinedKey` holds exactly when there is one.
   */
  function BoundKey(event: KeyEvent): (r: Option<Key>)
    ensures r.Some? ==> Matches(r.value, event)
    ensures forall key :: Matches(key, event) ==> r == Some(key)
  {
    if Matches(GoUp, event) then Some(GoUp)
    else if Matches(GoDown, event) then Some(GoDown)
    else if Matches(Enter, event) then Some(Enter)
    else if Matches(Tab, event) then Some(Tab)
    else if Matches(DeleteWord, event) then Some(DeleteWord)
    else if Matches(Interrupt, event) then Some(Interrupt)
    else None
  }

  /** `isDefinedKey`: some matcher of the table accepts the event, which is to say the event is bound to a key. */
  function IsDefinedKey(event: KeyEvent): (r: bool)
    ensures r <==> BoundKey(event).Some?
  {
    assert BoundKey(event).Some? ==> Matches(BoundKey(event).value, event);
    exists key :: Matches(key, event)
  }

  /** `isDefinedKey` is memoised on `[ctrlKey, keyCode]`; that is sound because no matcher reads another field. */
  lemma DefinedKeyDependsOnCtrlAndCode(a: KeyEvent, b: KeyEvent)
    requires a.ctrlKey == b.ctrlKey && a.keyCode == b.keyCode
    ensures IsDefinedKey(a) <==> IsDefinedKey(b)
    ensures BoundKey(a) == BoundKey(b)
  {
    if IsDefinedKey(a) {
      var key :| Matches(key, a);
      assert Matches(key, b);
    }
    if IsDefinedKey(b) {
      var key :| Matches(key, b);
      assert Matches(key, a);
    }
  }

  /**
   * `isCommandKey`: shift, control or alt on its own, or any key with a
   * modifier held. The control bindings are command keys, so pressing them
   * never records a latest key code.
   */
  function IsCommandKey(event: KeyEvent): (r: bool)
    ensures r <==> event.keyCode in {16, 17, 18} || event.ctrlKey || event.altKey || event.metaKey
    ensures Matches(DeleteWord, event) || Matches(Interrupt, event) ==> r
    ensures !r ==> BoundKey(event) != Some(DeleteWord) && BoundKey(event) != Some(Interrupt)
  {
    event.keyCode in [16, 17, 18] || event.ctrlKey || event.altKey || event.metaKey
  }

  /** `isEmpty` on a text: nothing is left once whitespace (JavaScript's `\s`) is removed. */
  function IsEmpty(text: string): (r: bool)
    ensures r <==> AllWhitespace(text)
  {
    |RemoveWhitespace(text)| == 0
  }

  /** An empty prompt is exactly one that trims to nothing. */
  lemma EmptyIffTrimmedEmpty(text: string)
    ensures IsEmpty(text) <==> Trim(text) == []
  {
    TrimSpec(text);
  }

  /** The text `deleteWord` leaves: every expanded token but the last, joined by spaces, and a space after a non-empty result. */
  function DeleteWordText(expanded: seq<string>): (r: string)
    ensures r == [] || r[|r| - 1] == ' '
    ensures |expanded| <= 1 ==> r == []
  {
    var kept := if expanded == [] then [] else expanded[..|expanded| - 1];
    var joined := Join(kept, ' ');
    if |joined| > 0 then joined + " " else joined
  }

  /**
   * Read back by splitting on spaces, a non-empty result gives exactly the
   * tokens kept, provided no token holds a space.
   */
  lemma DeleteWordKeepsTokens(expanded: seq<string>)
    requires forall i :: 0 <= i < |expanded| ==> ' ' !in expanded[i]
    ensures var r := DeleteWordText(expanded);
            r != [] ==> Split(r[..|r| - 1], ' ') == expanded[..|expanded| - 1]
  {
    var r := DeleteWordText(expanded);
    if r != [] {
      var kept := expanded[..|expanded| - 1];
      assert r[..|r| - 1] == Join(kept, ' ');
      SplitJoin(kept, ' ');
    }
  }

  /** Deleting a word from tokens and one more token gives the text of the tokens followed by a space. */
  lemma DeleteWordAfterAppend(tokens: seq<string>, last: string)
    requires tokens != [] && Join(tokens, ' ') != []
    ensures DeleteWordText(tokens + [last]) == Join(tokens, ' ') + " "
  {
    assert (tokens + [last])[..|tokens|] == tokens;
  }

  /** The prompt's `status` property; only the first two values are examined. */
  datatype Status = NotStarted | InProgress | OtherStatus(name: string)

  /** The suggestion fields the prompt view reads. */
  datatype PromptSuggestion = PromptSuggestion(value: string, partial: bool, replaceAll: bool)

  /** The highlighted index after moving up or down in a list of `count` suggestions. */
  function Navigated(goUp: bool, index: int, count: nat): (r: int)
    ensures goUp ==> (index >= 1 ==> r == index - 1) && (index < 1 ==> r == 0)
    ensures !goUp ==> r <= index + 1 && (index + 1 < count ==> r == index + 1) && (index + 1 >= count ==> r == count - 1)
    ensures count >= 1 && 0 <= index < count ==> 0 <= r < count
  {
    if goUp then (if index - 1 > 0 then index - 1 else 0)
    else (if count - 1 < index + 1 then count - 1 else index + 1)
  }

  class PromptView {
    /** `prompt.buffer`. */
    var text: string
    var caretPosition: int
    var suggestions: seq<PromptSuggestion>
    var highlightedSuggestionIndex: int
    /** `null` until a key that is not a command key is pressed. */
    var latestKeyCode: Option<int>
    /** How many times the prompt has been asked to execute. */
    var executions: nat

    /** The initial state. */
    constructor (text: string)
      ensures this.text == text && caretPosition == 0
      ensures suggestions == [] && highlightedSuggestionIndex == 0
      ensures latestKeyCode == None && executions == 0
    {
      this.text := text;
      caretPosition := 0;
      suggestions := [];
      highlightedSuggestionIndex := 0;
      latestKeyCode := None;
      executions := 0;
    }

    /** Every key down that is not a command key records its code. */
    method RecordKey(event: KeyEvent)
      modifies this
      ensures latestKeyCode == if IsCommandKey(event) then old(latestKeyCode) else Some(event.keyCode)
      ensures text == old(text) && caretPosition == old(caretPosition)
      ensures suggestions == old(suggestions) && highlightedSuggestionIndex == old(highlightedSuggestionIndex)
      ensures executions == old(executions)
    {
      if !IsCommandKey(event) {
        latestKeyCode := Some(event.keyCode);
      }
    }

    /** `replaceText`: the buffer becomes the text and the caret goes to its end. */
    method ReplaceText(newText: string)
      modifies this
      ensures text == newText && caretPosition == |newText|
      ensures suggestions == old(suggestions) && highlightedSuggestionIndex == old(highlightedSuggestionIndex)
      ensures latestKeyCode == old(latestKeyCode) && executions == old(executions)
    {
      text := newText;
      caretPosition := |newText|;
    }

    /** `deleteWord`, given the prompt's current expanded tokens. */
    method DeleteWord(expanded: seq<string>)
      modifies this
      ensures text == DeleteWordText(expanded) && caretPosition == |text|
      ensures text == [] || text[|text| - 1] == ' '
      ensures suggestions == old(suggestions) && highlightedSuggestionIndex == old(highlightedSuggestionIndex)
      ensures latestKeyCode == old(latestKeyCode) && executions == old(executions)
    {
      var kept := if expanded == [] then [] else expanded[..|expanded| - 1];
      var newCommand := Join(kept, ' ');
      if |newCommand| > 0 {
        newCommand := newCommand + " ";
      }
      ReplaceText(newCommand);
    }

    /** `execute`: the prompt runs only when its text is not blank. */
    method Execute()
      modifies this
      ensures executions == old(executions) + (if IsEmpty(text) then 0 else 1)
      ensures text == old(text) && caretPosition == old(caretPosition)
      ensures suggestions == old(suggestions) && highlightedSuggestionIndex == old(highlightedSuggestionIndex)
      ensures latestKeyCode == old(latestKeyCode)
    {
      if !IsEmpty(text) {
        executions := executions + 1;
      }
    }

    /** `navigateAutocomplete`: up moves towards the first suggestion, anything else towards the last. */
    method NavigateAutocomplete(event: KeyEvent)
      modifies this
      ensures highlightedSuggestionIndex == Navigated(Matches(GoUp, event), old(highlightedSuggestionIndex), |suggestions|)
      ensures |suggestions| >= 1 && 0 <= old(highlightedSuggestionIndex) < |suggestions| ==>
                0 <= highlightedSuggestionIndex < |suggestions|
      ensures text == old(text) && caretPosition == old(caretPosition) && suggestions == old(suggestions)
      ensures latestKeyCode == old(latestKeyCode) && executions == old(executions)
    {
      var index;
      if Matches(GoUp, event) {
        index := if highlightedSuggestionIndex - 1 > 0 then highlightedSuggestionIndex - 1 else 0;
      } else {
        index := if |suggestions| - 1 < highlightedSuggestionIndex + 1 then |suggestions| - 1 else highlightedSuggestionIndex + 1;
      }
      highlightedSuggestionIndex := index;
    }

    /**
     * `selectAutocomplete` on the highlighted suggestion: a `replaceAll`
     * suggestion replaces the whole text; any other replaces the current
     * lexeme and is followed by a space unless it is partial. The caret ends
     * at the end of the text either way.
     */
    method SelectAutocomplete(replaceCurrentLexeme: (string, PromptSuggestion) -> string)
      requires 0 <= highlightedSuggestionIndex < |suggestions|
      modifies this
      ensures var s := old(suggestions[highlightedSuggestionIndex]);
              && (s.replaceAll ==> text == s.value)
              && (!s.replaceAll ==> text == replaceCurrentLexeme(old(text), s) + (if s.partial then "" else " "))
      ensures caretPosition == |text|
      ensures suggestions == old(suggestions) && highlightedSuggestionIndex == old(highlightedSuggestionIndex)
      ensures latestKeyCode == old(latestKeyCode) && executions == old(executions)
    {
      var suggestion := suggestions[highlightedSuggestionIndex];
      if suggestion.replaceAll {
        ReplaceText(suggestion.value);
      } else {
        text := replaceCurrentLexeme(text, suggestion);
        if !suggestion.partial {
          text := text + " ";
        }
        caretPosition := |text|;
      }
    }

    /** The `then` of `getSuggestions`: new suggestions arrive with the first one highlighted. */
    method ReceiveSuggestions(newSuggestions: seq<PromptSuggestion>)
      modifies this
      ensures suggestions == newSuggestions && highlightedSuggestionIndex == 0
      ensures newSuggestions != [] ==> 0 <= highlightedSuggestionIndex < |suggestions|
      ensures text == old(text) && caretPosition == old(caretPosition)
      ensures latestKeyCode == old(latestKeyCode) && executions == old(executions)
    {
      suggestions := newSuggestions;
      highlightedSuggestionIndex := 0;
    }

    /**
     * `showAutocomplete`: only for the prompt holding attention, once mounted,
     * with suggestions to show, a non-blank text, a command not started yet and
     * a latest key other than enter (13) or escape (27).
     */
    function ShowAutocomplete(hasLocusOfAttention: bool, mounted: bool, status: Status): (r: bool)
      reads this
      ensures r ==> hasLocusOfAttention && mounted && status == NotStarted
      ensures r ==> suggestions != [] && exists i :: 0 <= i < |text| && !IsWhitespace(text[i])
      ensures r ==> latestKeyCode != Some(13) && latestKeyCode != Some(27)
      ensures (&& hasLocusOfAttention && mounted && status == NotStarted && suggestions != [] && !IsEmpty(text)
               && latestKeyCode != Some(13) && latestKeyCode != Some(27)) ==> r
    {
      && hasLocusOfAttention
      && |suggestions| != 0
      && mounted
      && !IsEmpty(text)
      && status == NotStarted
      && !(latestKeyCode.Some? && latestKeyCode.value in [13, 27])
    }
  }
}
