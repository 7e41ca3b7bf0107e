/**
 * The terminal list of `Application.ts`: terminals are added, removed and
 * activated, and resizing the window hands every terminal the same
 * dimensions. Removing the last terminal sends the `quit` message, which is
 * recorded here as a count of messages sent.
 */
module Applications {
  import opened Wrappers
  import opened Seqs

  /** Pixel sizes, taken as whole numbers here. */
  datatype Size = Size(width: nat, height: nat)

  /** Columns and rows of characters. */
  datatype Dimensions = Dimensions(columns: nat, rows: nat)

  /** `contentDimensions`: how many character cells fit, rounding down. */
  function ContentDimensions(contentSize: Size, charSize: Size): (r: Dimensions)
    requires charSize.width > 0 && charSize.height > 0
    ensures r.columns * charSize.width <= contentSize.width < (r.columns + 1) * charSize.width
    ensures r.rows * charSize.height <= contentSize.height < (r.rows + 1) * charSize.height
  {
    Dimensions(contentSize.width / charSize.width, contentSize.height / charSize.height)
  }

  class Terminal {
    var dimensions: Dimensions

    constructor (dimensions: Dimensions)
      ensures this.dimensions == dimensions
    {
      this.dimensions := dimensions;
    }
  }

  class Application {
    var terminals: seq<Terminal>
    var contentSize: Size
    const charSize: Size
    /** `_activeTerminalIndex`, undefined until a terminal is activated. */
    var activeTerminalIndex: Option<int>
    /** How many times `quit` has been sent. */
    var quitMessages: nat

    /** The character size is positive, so dimensions are defined. */
    predicate Valid()
      reads this
    {
      charSize.width > 0 && charSize.height > 0
    }

    /** Starts with one terminal sized to the window. */
    constructor (charSize: Size, windowSize: Size)
      requires charSize.width > 0 && charSize.height > 0
      ensures Valid()
      ensures this.charSize == charSize && contentSize == windowSize
      ensures |terminals| == 1 && fresh(terminals[0])
      ensures terminals[0].dimensions == ContentDimensions(windowSize, charSize)
      ensures activeTerminalIndex == None && quitMessages == 0
    {
      this.charSize := charSize;
      contentSize := windowSize;
      activeTerminalIndex := None;
      quitMessages := 0;
      var terminal := new Terminal(ContentDimensions(windowSize, charSize));
      terminals := [terminal];
    }

    /** `addTerminal`: a new terminal sized to the content, appended at the end. */
    method AddTerminal() returns (terminal: Terminal)
      requires Valid()
      modifies this
      ensures Valid()
      ensures fresh(terminal) && terminal.dimensions == ContentDimensions(contentSize, charSize)
      ensures terminals == old(terminals) + [terminal]
      ensures contentSize == old(contentSize) && activeTerminalIndex == old(activeTerminalIndex)
      ensures quitMessages == old(quitMessages)
    {
      terminal := new Terminal(ContentDimensions(contentSize, charSize));
      terminals := terminals + [terminal];
    }

    /**
     * `removeTerminal`: every occurrence goes, the others keep their order,
     * `quit` is sent exactly when no terminal is left, and the active index
     * is left as it was.
     */
    method RemoveTerminal(terminal: Terminal) returns (self: Application)
      requires Valid()
      modifies this
      ensures Valid()
      ensures self == this
      ensures terminals == RemoveAll(old(terminals), terminal)
      ensures quitMessages == old(quitMessages) + (if terminals == [] then 1 else 0)
      ensures contentSize == old(contentSize) && activeTerminalIndex == old(activeTerminalIndex)
    {
      terminals := RemoveAll(terminals, terminal);
      if terminals == [] {
        quitMessages := quitMessages + 1;
      }
      self := this;
    }

    /** `activateTerminal`: the index of the terminal's first occurrence, or -1. */
    method ActivateTerminal(terminal: Terminal)
      modifies this
      ensures activeTerminalIndex == Some(IndexOf(terminals, terminal))
      ensures terminal in terminals ==> terminals[activeTerminalIndex.value] == terminal
      ensures terminal !in terminals ==> activeTerminalIndex == Some(-1)
      ensures terminals == old(terminals) && contentSize == old(contentSize) && quitMessages == old(quitMessages)
    {
      activeTerminalIndex := Some(IndexOf(terminals, terminal));
    }

    /** `activeTerminal`: the terminal at the active index, if the index names one. */
    function ActiveTerminal(): (r: Option<Terminal>)
      reads this
      ensures r.Some? <==> activeTerminalIndex.Some? && 0 <= activeTerminalIndex.value < |terminals|
      ensures r.Some? ==> r.value == terminals[activeTerminalIndex.value]
    {
      match activeTerminalIndex
      case Some(i) => if 0 <= i < |terminals| then Some(terminals[i]) else None
      case None => None
    }

    /** The `contentSize` setter: every terminal gets the new content's dimensions. */
    method SetContentSize(newSize: Size)
      requires Valid()
      modifies this, set t | t in terminals
      ensures Valid()
      ensures contentSize == newSize
      ensures forall t :: t in terminals ==> t.dimensions == ContentDimensions(newSize, charSize)
      ensures terminals == old(terminals) && activeTerminalIndex == old(activeTerminalIndex)
      ensures quitMessages == old(quitMessages)
    {
      contentSize := newSize;
      var dimensions := ContentDimensions(newSize, charSize);
      var i := 0;
      while i < |terminals|
        invariant 0 <= i <= |terminals|
        invariant contentSize == newSize && terminals == old(terminals)
        invariant activeTerminalIndex == old(activeTerminalIndex) && quitMessages == old(quitMessages)
        invariant forall j :: 0 <= j < i ==> terminals[j].dimensions == dimensions
      {
        terminals[i].dimensions := dimensions;
        i := i + 1;
      }
    }
  }

  /** Activating a just-added terminal makes the last index the active one. */
  lemma AddedTerminalIsLast(terminals: seq<Terminal>, terminal: Terminal)
    requires terminal !in terminals
    ensures IndexOf(terminals + [terminal], terminal) == |terminals|
  {
    assert (terminals + [terminal])[|terminals|] == terminal;
    assert forall j :: 0 <= j < |terminals| ==> (terminals + [terminal])[j] == terminals[j];
  }

  /** Removing a terminal that is already gone changes nothing, so removing twice is removing once. */
  lemma {:induction false} RemoveAbsentTerminal(terminals: seq<Terminal>, terminal: Terminal)
    requires terminal !in terminals
    ensures RemoveAll(terminals, terminal) == terminals
  {
    if terminals != [] {
      assert terminals == [terminals[0]] + terminals[1..];
      RemoveAbsentTerminal(terminals[1..], terminal);
    }
  }

  lemma RemoveTerminalIdempotent(terminals: seq<Terminal>, terminal: Terminal)
    ensures RemoveAll(RemoveAll(terminals, terminal), terminal) == RemoveAll(terminals, terminal)
  {
    RemoveAbsentTerminal(RemoveAll(terminals, terminal), terminal);
  }
}
