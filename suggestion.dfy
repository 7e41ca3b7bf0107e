/**
 * The `Suggestion` value of the autocompletion providers: an all-optional
 * attribute record whose getters supply the documented defaults, the
 * in-place `with*` builders, and the visual style tags.
 */
module Suggestions {
  import opened Wrappers
  import opened Text

  /** The three file icons `extensionIcon` chooses between. */
  datatype Icon = ArchiveIcon | CodeIcon | GenericFileIcon

  /** The `styles` table: opaque visual tags; only which tag is chosen matters here. */
  datatype Style =
    | NoStyle
    | ExecutableStyle
    | CommandStyle
    | OptionStyle
    | OptionValueStyle
    | EnvironmentVariableStyle
    | BranchStyle
    | DirectoryStyle
    | FileStyle(icon: Icon)
    | ImagePreview(url: string)
    | AliasStyle
    | FuncStyle
    | HistoryStyle

  /** `extensionIcon`: archives and four code extensions get their own icon. */
  function ExtensionIcon(extension: string): (r: Icon)
    ensures r == ArchiveIcon <==> extension == ".zip" || extension == ".gzip"
    ensures r == CodeIcon <==> extension in [".js", ".ts", ".rb", ".json"]
  {
    if extension == ".zip" || extension == ".gzip" then ArchiveIcon
    else if extension in [".js", ".ts", ".rb", ".json"] then CodeIcon
    else GenericFileIcon
  }

  /** `styles.file`: an image previews its own path, any other file shows its extension's icon. */
  function FileStyleFor(extension: string, isImage: bool, fullPath: string): (r: Style)
    ensures r.ImagePreview? <==> isImage
    ensures isImage ==> r.url == fullPath
    ensures !isImage ==> r == FileStyle(ExtensionIcon(extension))
  {
    if isImage then ImagePreview(fullPath) else FileStyle(ExtensionIcon(extension))
  }

  /**
   * `SuggestionAttributes`: every field may be absent. The getters implement
   * JavaScript's `||` fallbacks, so an empty string counts as absent.
   */
  datatype Attributes = Attributes(
    value: Option<string>,
    displayValue: Option<string>,
    synopsis: Option<string>,
    description: Option<string>,
    style: Option<Style>,
    space: Option<bool>,
    shouldEscapeSpaces: Option<bool>)
  {
    function Value(): (r: string)
      ensures value.Some? ==> r == value.value
      ensures value.None? ==> r == ""
    {
      value.GetOr("")
    }

    function Description(): (r: string)
      ensures description.Some? ==> r == description.value
      ensures description.None? ==> r == ""
    {
      description.GetOr("")
    }

    function EffectiveStyle(): (r: Style)
      ensures style.Some? ==> r == style.value
      ensures style.None? ==> r == NoStyle
    {
      style.GetOr(NoStyle)
    }

    /** `displayValue` falls back to `value` when absent or empty. */
    function DisplayValue(): (r: string)
      ensures displayValue.Some? && displayValue.value != "" ==> r == displayValue.value
      ensures displayValue.None? || displayValue.value == "" ==> r == Value()
    {
      if displayValue.Some? && displayValue.value != "" then displayValue.value else Value()
    }

    /**
     * `synopsis` falls back to the truncated description when absent or empty;
     * lodash's `truncate` is passed in.
     */
    function Synopsis(truncate: string -> string): (r: string)
      ensures synopsis.Some? && synopsis.value != "" ==> r == synopsis.value
      ensures synopsis.None? || synopsis.value == "" ==> r == truncate(Description())
    {
      if synopsis.Some? && synopsis.value != "" then synopsis.value else truncate(Description())
    }

    predicate ShouldAddSpace() {
      space == Some(true)
    }

    predicate ShouldEscapeSpaces() {
      shouldEscapeSpaces == Some(true)
    }

    /**
     * `valueForPrompt`: the value with each whitespace character escaped as
     * backslash-space when escaping is on, then one trailing space when
     * `shouldAddSpace` holds.
     */
    function ValueForPrompt(): (r: string)
      ensures !ShouldEscapeSpaces() && !ShouldAddSpace() ==> r == Value()
      ensures |r| == |Value()| + (if ShouldEscapeSpaces() then CountWhitespace(Value()) else 0)
                              + (if ShouldAddSpace() then 1 else 0)
      ensures !ShouldEscapeSpaces() ==> r[..|Value()|] == Value()
      ensures ShouldEscapeSpaces() ==> r[..|r| - (if ShouldAddSpace() then 1 else 0)] == EscapeWhitespace(Value())
      ensures ShouldAddSpace() ==> r[|r| - 1] == ' '
      ensures ShouldEscapeSpaces() ==>
                forall i :: 0 <= i < |r| - (if ShouldAddSpace() then 1 else 0) && IsWhitespace(r[i]) ==>
                  r[i] == ' ' && 0 < i && r[i - 1] == '\\'
    {
      var escaped := if ShouldEscapeSpaces() then EscapeWhitespace(Value()) else Value();
      if ShouldAddSpace() then escaped + " " else escaped
    }
  }

  /** `new Suggestion()` with no attributes. */
  const NoAttributes := Attributes(None, None, None, None, None, None, None)

  /** The defaults of an attribute-less suggestion. */
  lemma DefaultsWhenAbsent(truncate: string -> string)
    ensures NoAttributes.Value() == "" && NoAttributes.DisplayValue() == ""
    ensures NoAttributes.Description() == "" && NoAttributes.EffectiveStyle() == NoStyle
    ensures NoAttributes.Synopsis(truncate) == truncate("")
    ensures !NoAttributes.ShouldAddSpace() && !NoAttributes.ShouldEscapeSpaces()
    ensures NoAttributes.ValueForPrompt() == ""
  {
  }

  /** The suggestion object; its `with*` builders update the attribute record in place and return the same object. */
  class Suggestion {
    var attributes: Attributes

    constructor (attributes: Attributes)
      ensures this.attributes == attributes
    {
      this.attributes := attributes;
    }

    method WithValue(value: string) returns (self: Suggestion)
      modifies this
      ensures self == this
      ensures attributes == old(attributes).(value := Some(value))
      ensures attributes.Value() == value
    {
      attributes := attributes.(value := Some(value));
      self := this;
    }

    method WithDisplayValue(value: string) returns (self: Suggestion)
      modifies this
      ensures self == this
      ensures attributes == old(attributes).(displayValue := Some(value))
      ensures attributes.DisplayValue() == if value == "" then old(attributes).Value() else value
    {
      attributes := attributes.(displayValue := Some(value));
      self := this;
    }

    method WithSynopsis(synopsis: string) returns (self: Suggestion)
      modifies this
      ensures self == this
      ensures attributes == old(attributes).(synopsis := Some(synopsis))
    {
      attributes := attributes.(synopsis := Some(synopsis));
      self := this;
    }

    method WithDescription(description: string) returns (self: Suggestion)
      modifies this
      ensures self == this
      ensures attributes == old(attributes).(description := Some(description))
      ensures attributes.Description() == description
    {
      attributes := attributes.(description := Some(description));
      self := this;
    }

    method WithStyle(style: Style) returns (self: Suggestion)
      modifies this
      ensures self == this
      ensures attributes == old(attributes).(style := Some(style))
      ensures attributes.EffectiveStyle() == style
    {
      attributes := attributes.(style := Some(style));
      self := this;
    }

    method WithSpace() returns (self: Suggestion)
      modifies this
      ensures self == this
      ensures attributes == old(attributes).(space := Some(true))
      ensures attributes.ShouldAddSpace()
      ensures attributes.ValueForPrompt()[|attributes.ValueForPrompt()| - 1] == ' '
    {
      attributes := attributes.(space := Some(true));
      self := this;
    }
  }
}
