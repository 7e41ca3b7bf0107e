/**
 * The man-page flag extractor of `ManPages.ts`: the output of `man <command>`
 * is cleaned of overstrike sequences, cut into lines, grouped into sections,
 * the DESCRIPTION section cut into paragraphs, and every paragraph whose first
 * line names a one-letter flag becomes an option suggestion.
 *
 * The `execFile` call is outside the model: its standard output and standard
 * error arrive as strings.
 */
module ManPages {
  import opened Wrappers
  import opened Seqs
  import opened Text
  import opened Suggestions
  import opened Providers

  const Backspace: char := '\U{8}'

  /* ---- applying backspaces ---- */

  /**
   * `stdout.replace(/.\x08/g, "")`: scanning left to right, a character that
   * is not a line terminator and is followed by a backspace is deleted
   * together with the backspace; the scan resumes after the pair.
   */
  function StripOverstrike(s: string): (r: string)
    ensures |r| <= |s|
    ensures Backspace !in s ==> r == s
  {
    if |s| >= 2 && !IsLineTerminator(s[0]) && s[1] == Backspace then StripOverstrike(s[2..])
    else if s == [] then []
    else
      assert Backspace !in s ==> Backspace !in s[1..];
      [s[0]] + StripOverstrike(s[1..])
  }

  /**
   * How a terminal pager marks up text: each character of `text` is struck
   * over `marks` (the character itself for bold, `_` for underline).
   */
  function Overstruck(marks: string, text: string): (r: string)
    requires |marks| == |text|
    ensures |r| == 3 * |text|
  {
    if text == [] then [] else [marks[0], Backspace, text[0]] + Overstruck(marks[1..], text[1..])
  }

  /** Removing the overstrike pairs recovers the marked-up text. */
  lemma {:induction false} StripOverstruck(marks: string, text: string)
    requires |marks| == |text|
    requires forall i :: 0 <= i < |marks| ==> !IsLineTerminator(marks[i]) && marks[i] != Backspace
    requires forall i :: 0 <= i < |text| ==> text[i] != Backspace
    ensures StripOverstrike(Overstruck(marks, text)) == text
  {
    if text != [] {
      var rest := Overstruck(marks[1..], text[1..]);
      StripOverstruck(marks[1..], text[1..]);
      var s := Overstruck(marks, text);
      assert s == [marks[0], Backspace, text[0]] + rest;
      assert s[2..] == [text[0]] + rest;
      var t := [text[0]] + rest;
      assert t[1..] == rest;
      assert |t| >= 2 ==> t[1] == marks[1] != Backspace;
      if |t| >= 2 && !IsLineTerminator(t[0]) && t[1] == Backspace {
        assert false;
      }
      assert StripOverstrike(t) == [text[0]] + StripOverstrike(rest);
      assert [text[0]] + text[1..] == text;
    }
  }

  /** Bold and underlined text both come back unchanged. */
  lemma BoldAndUnderline(text: string)
    requires forall i :: 0 <= i < |text| ==> !IsLineTerminator(text[i]) && text[i] != Backspace
    ensures StripOverstrike(Overstruck(text, text)) == text
    ensures StripOverstrike(Overstruck(seq(|text|, _ => '_'), text)) == text
  {
    StripOverstruck(text, text);
    StripOverstruck(seq(|text|, _ => '_'), text);
  }

  /** The page as lines: the cleaned output trimmed and split at every "\n". */
  function ManLines(stdout: string): (r: seq<string>)
    ensures |r| >= 1
    ensures forall i :: 0 <= i < |r| ==> '\n' !in r[i]
  {
    SplitPiecesFree(Trim(StripOverstrike(stdout)), '\n');
    Split(Trim(StripOverstrike(stdout)), '\n')
  }

  /** The lines are exactly the trimmed page, cut at its line breaks. */
  lemma ManLinesRejoin(stdout: string)
    ensures Join(ManLines(stdout), '\n') == Trim(StripOverstrike(stdout))
  {
    JoinSplit(Trim(StripOverstrike(stdout)), '\n');
  }

  /** Unless the page is blank, its first line is a section header. */
  lemma FirstLineIsHeader(stdout: string)
    ensures !IsContinuation(ManLines(stdout)[0]) <==> !AllWhitespace(StripOverstrike(stdout))
  {
    var t := Trim(StripOverstrike(stdout));
    TrimSpec(StripOverstrike(stdout));
    if t != [] {
      assert t[0] != '\n';
      var rest := Split(t[1..], '\n');
      assert Split(t, '\n') == [[t[0]] + rest[0]] + rest[1..];
      assert ManLines(stdout)[0][0] == t[0];
    } else {
      assert ManLines(stdout) == [[]];
    }
  }

  /* ---- sections ---- */

  /** A blank or space-led line continues the current section; any other line opens one. */
  predicate IsContinuation(line: string)
  {
    StartsWith(line, " ") || line == ""
  }

  /** The state of the section loop: the current section's name and the sections so far. */
  datatype Sections = Sections(current: string, table: map<string, seq<string>>)

  /** `manSections[currentSection]` when no section has been opened yet. */
  const NoCurrentSection := "Cannot read property 'push' of undefined"

  /** One iteration of the section loop. */
  function SectionStep(state: Sections, line: string): Result<Sections>
  {
    if IsContinuation(line) then
      if state.current in state.table then
        Ok(state.(table := state.table[state.current := state.table[state.current] + [line]]))
      else Err(NoCurrentSection)
    else if line in state.table then Ok(state.(current := line))
    else Ok(Sections(line, state.table[line := []]))
  }

  /** The section loop run over `lines`, starting with no section and the empty name. */
  function SectionsOf(lines: seq<string>): Result<Sections>
  {
    if lines == [] then Ok(Sections("", map[]))
    else match SectionsOf(lines[..|lines| - 1])
      case Err(e) => Err(e)
      case Ok(state) => SectionStep(state, lines[|lines| - 1])
  }

  function SectionTable(lines: seq<string>): Result<map<string, seq<string>>>
  {
    match SectionsOf(lines)
    case Err(e) => Err(e)
    case Ok(state) => Ok(state.table)
  }

  /** The section loop of `manPageToOptions`. */
  method SplitSections(lines: seq<string>) returns (r: Result<map<string, seq<string>>>)
    ensures r == SectionTable(lines)
  {
    var currentSection := "";
    var manSections: map<string, seq<string>> := map[];
    var i := 0;
    while i < |lines|
      invariant 0 <= i <= |lines|
      invariant SectionsOf(lines[..i]) == Ok(Sections(currentSection, manSections))
    {
      var line := lines[i];
      assert lines[..i + 1][..i] == lines[..i];
      if StartsWith(line, " ") || line == "" {
        if currentSection !in manSections {
          SectionsErrorPersists(lines, i + 1);
          return Err(NoCurrentSection);
        }
        manSections := manSections[currentSection := manSections[currentSection] + [line]];
      } else {
        currentSection := line;
        if line !in manSections {
          manSections := manSections[line := []];
        }
      }
      i := i + 1;
    }
    assert lines[..|lines|] == lines;
    r := Ok(manSections);
  }

  /** Once the loop has failed, the rest of the page does not matter. */
  lemma {:induction false} SectionsErrorPersists(lines: seq<string>, n: nat)
    requires n <= |lines| && SectionsOf(lines[..n]).Err?
    ensures SectionsOf(lines) == SectionsOf(lines[..n])
    decreases |lines| - n
  {
    if n < |lines| {
      assert lines[..n + 1][..n] == lines[..n];
      SectionsErrorPersists(lines, n + 1);
    } else {
      assert lines[..n] == lines;
    }
  }

  /** The header lines of `lines`. */
  function Headers(lines: seq<string>): set<string>
  {
    if lines == [] then {}
    else Headers(lines[..|lines| - 1]) + (if IsContinuation(lines[|lines| - 1]) then {} else {lines[|lines| - 1]})
  }

  /** The most recent header line, or "" before the first. */
  function LastHeader(lines: seq<string>): (r: string)
    ensures r == "" || r in Headers(lines)
  {
    if lines == [] then ""
    else if IsContinuation(lines[|lines| - 1]) then LastHeader(lines[..|lines| - 1])
    else lines[|lines| - 1]
  }

  /** The continuation lines whose most recent header is `h`, in page order. */
  function OwnedBy(lines: seq<string>, h: string): seq<string>
  {
    if lines == [] then []
    else
      var before := lines[..|lines| - 1];
      var line := lines[|lines| - 1];
      OwnedBy(before, h) + (if IsContinuation(line) && LastHeader(before) == h then [line] else [])
  }

  /** The loop fails exactly when the page starts with a continuation line. */
  lemma {:induction false} SectionsFailure(lines: seq<string>)
    ensures SectionsOf(lines).Err? <==> |lines| > 0 && IsContinuation(lines[0])
    ensures SectionsOf(lines).Ok? && lines != [] ==> SectionsOf(lines).value.current in SectionsOf(lines).value.table
  {
    if |lines| > 1 {
      var before := lines[..|lines| - 1];
      assert before[0] == lines[0];
      SectionsFailure(before);
    }
  }

  /**
   * What the loop builds: one section per distinct header line; each holds the
   * continuation lines that follow any occurrence of its header, in page
   * order, so a repeated header reopens its section and appends to it.
   */
  lemma {:induction false} SectionsContents(lines: seq<string>)
    requires SectionsOf(lines).Ok?
    ensures SectionsOf(lines).value.current == LastHeader(lines)
    ensures SectionsOf(lines).value.table.Keys == Headers(lines)
    ensures forall h :: h in SectionsOf(lines).value.table ==> SectionsOf(lines).value.table[h] == OwnedBy(lines, h)
  {
    if lines != [] {
      var before := lines[..|lines| - 1];
      var line := lines[|lines| - 1];
      SectionsContents(before);
      var state := SectionsOf(before).value;
      var state' := SectionsOf(lines).value;
      if IsContinuation(line) {
        assert state' == state.(table := state.table[state.current := state.table[state.current] + [line]]);
      } else {
        assert line != "";
        if line !in state.table {
          OwnedByUnknown(before, line);
        }
      }
    }
  }

  lemma {:induction false} OwnedByUnknown(lines: seq<string>, h: string)
    requires h != "" && h !in Headers(lines)
    ensures OwnedBy(lines, h) == []
  {
    if lines != [] {
      var before := lines[..|lines| - 1];
      OwnedByUnknown(before, h);
      assert LastHeader(before) != h;
    }
  }

  /* ---- paragraphs ---- */

  /** The paragraph reduce: a blank line starts a new paragraph, any other line joins the last one. */
  method SplitParagraphs(lines: seq<string>) returns (memo: seq<seq<string>>)
    ensures memo == Split(lines, "")
  {
    memo := [[]];
    var i := 0;
    while i < |lines|
      invariant 0 <= i <= |lines|
      invariant memo == Split(lines[..i], "")
    {
      SplitSnoc(lines[..i], lines[i], "");
      assert lines[..i + 1] == lines[..i] + [lines[i]];
      if lines[i] == "" {
        memo := memo + [[]];
      } else {
        memo := memo[..|memo| - 1] + [memo[|memo| - 1] + [lines[i]]];
      }
      i := i + 1;
    }
    assert lines[..|lines|] == lines;
  }

  /** `manDescriptionParagraphs.filter(lines => lines.length > 0)`. */
  function FlagParagraphs(lines: seq<string>): seq<seq<string>>
  {
    Filter(Split(lines, ""), NonEmpty)
  }

  /**
   * Every kept paragraph is non-empty and holds no blank line, and the kept
   * paragraphs laid end to end are the non-blank lines, in order.
   */
  lemma ParagraphsPartitionLines(lines: seq<string>)
    ensures forall p :: p in FlagParagraphs(lines) ==> p != [] && "" !in p
    ensures Flatten(FlagParagraphs(lines)) == RemoveAll(lines, "")
  {
    SplitPiecesFree(lines, "");
    forall p | p in FlagParagraphs(lines)
      ensures p != [] && "" !in p
    {
      var i :| 0 <= i < |Split(lines, "")| && Split(lines, "")[i] == p;
    }
    FlattenDropsEmpty(Split(lines, ""));
    FlattenSplit(lines, "");
  }

  /* ---- the two flag patterns ---- */

  /** The number of leading spaces (what ` *` at the start consumes). */
  function LeadingSpaces(s: string): (n: nat)
    ensures n <= |s|
    ensures forall i :: 0 <= i < n ==> s[i] == ' '
    ensures n < |s| ==> s[n] != ' '
  {
    if s != [] && s[0] == ' ' then 1 + LeadingSpaces(s[1..]) else 0
  }

  function Spaces(n: nat): (r: string)
    ensures |r| == n && forall i :: 0 <= i < n ==> r[i] == ' '
  {
    seq(n, _ => ' ')
  }

  predicate AllWordChars(s: string)
  {
    forall i :: 0 <= i < |s| ==> IsWordChar(s[i])
  }

  predicate NoLineTerminator(s: string)
  {
    forall i :: 0 <= i < |s| ==> !IsLineTerminator(s[i])
  }

  /** `/^ *-(\w) (\w*)$/`: the flag letter and the argument word. */
  function MatchWithArgument(line: string): Option<(char, string)>
  {
    var k := LeadingSpaces(line);
    if |line| >= k + 3 && line[k] == '-' && IsWordChar(line[k + 1]) && line[k + 2] == ' ' && AllWordChars(line[k + 3..])
    then Some((line[k + 1], line[k + 3..]))
    else None
  }

  /** `/^ *-(\w) *(.*)$/`: the flag letter and the trailer after the spaces that follow it. */
  function MatchWithoutArgument(line: string): Option<(char, string)>
  {
    var k := LeadingSpaces(line);
    if |line| >= k + 2 && line[k] == '-' && IsWordChar(line[k + 1]) && NoLineTerminator(line[k + 2..]) then
      var rest := line[k + 2..];
      Some((line[k + 1], rest[LeadingSpaces(rest)..]))
    else None
  }

  /** A line the first pattern accepts is spaces, a hyphen, the word-character flag, one space and a word. */
  lemma MatchWithArgumentSound(line: string)
    ensures var r := MatchWithArgument(line);
            r.Some? ==> && IsWordChar(r.value.0) && AllWordChars(r.value.1)
                        && line == Spaces(LeadingSpaces(line)) + ['-', r.value.0, ' '] + r.value.1
  {
    var k := LeadingSpaces(line);
    if MatchWithArgument(line).Some? {
      assert line == line[..k] + ['-', line[k + 1], ' '] + line[k + 3..];
      assert line[..k] == Spaces(k);
    }
  }

  /**
   * A line the second pattern accepts is spaces, a hyphen, the word-character
   * flag, more spaces and a trailer that holds no line terminator and does not
   * start with a space.
   */
  lemma MatchWithoutArgumentSound(line: string)
    ensures var r := MatchWithoutArgument(line);
            r.Some? ==> && IsWordChar(r.value.0) && NoLineTerminator(r.value.1)
                        && (r.value.1 == [] || r.value.1[0] != ' ')
                        && |line| >= LeadingSpaces(line) + 2 + |r.value.1|
                        && line == Spaces(LeadingSpaces(line)) + ['-', r.value.0]
                                   + Spaces(|line| - LeadingSpaces(line) - 2 - |r.value.1|) + r.value.1
  {
    var k := LeadingSpaces(line);
    if MatchWithoutArgument(line).Some? {
      var rest := line[k + 2..];
      var m := LeadingSpaces(rest);
      FlagLineParts(line, k, m);
      assert line[..k] == Spaces(k);
      assert rest[..m] == Spaces(m);
      NoLineTerminatorSuffix(rest, m);
    }
  }

  lemma FlagLineParts(line: string, k: nat, m: nat)
    requires k + 2 + m <= |line|
    ensures line == line[..k] + [line[k], line[k + 1]] + line[k + 2..][..m] + line[k + 2..][m..]
  {
    assert line == line[..k] + line[k..k + 2] + line[k + 2..][..m] + line[k + 2..][m..];
  }

  lemma NoLineTerminatorSuffix(s: string, m: nat)
    requires m <= |s| && NoLineTerminator(s)
    ensures NoLineTerminator(s[m..])
  {
    forall i | 0 <= i < |s| - m ensures !IsLineTerminator(s[m..][i]) {
      assert s[m..][i] == s[m + i];
    }
  }

  lemma {:induction false} LeadingSpacesOf(k: nat, rest: string)
    requires rest == [] || rest[0] != ' '
    ensures LeadingSpaces(Spaces(k) + rest) == k
  {
    if k > 0 {
      assert (Spaces(k) + rest)[1..] == Spaces(k - 1) + rest;
      LeadingSpacesOf(k - 1, rest);
    } else {
      assert Spaces(k) + rest == rest;
    }
  }

  /** Every line of the first shape is recognised, with its flag and argument. */
  lemma MatchWithArgumentComplete(k: nat, flag: char, argument: string)
    requires IsWordChar(flag) && AllWordChars(argument)
    ensures MatchWithArgument(Spaces(k) + ['-', flag, ' '] + argument) == Some((flag, argument))
  {
    var line := Spaces(k) + ['-', flag, ' '] + argument;
    LeadingSpacesOf(k, ['-', flag, ' '] + argument);
    assert line == Spaces(k) + (['-', flag, ' '] + argument);
    assert line[k] == '-' && line[k + 1] == flag && line[k + 2] == ' ';
    assert line[k + 3..] == argument;
  }

  /** Every line of the second shape is recognised, with its flag and trailer. */
  lemma MatchWithoutArgumentComplete(k: nat, flag: char, m: nat, trailer: string)
    requires IsWordChar(flag) && NoLineTerminator(trailer) && (trailer == [] || trailer[0] != ' ')
    ensures MatchWithoutArgument(Spaces(k) + ['-', flag] + Spaces(m) + trailer) == Some((flag, trailer))
  {
    var line := Spaces(k) + ['-', flag] + Spaces(m) + trailer;
    assert line == Spaces(k) + ['-', flag] + (Spaces(m) + trailer);
    FlagLineShape(k, flag, Spaces(m) + trailer);
    LeadingSpacesOf(k, ['-', flag] + (Spaces(m) + trailer));
    var rest := line[k + 2..];
    NoLineTerminatorAfterSpaces(m, trailer);
    LeadingSpacesOf(m, trailer);
    assert rest[m..] == trailer;
  }

  lemma FlagLineShape(k: nat, flag: char, rest: string)
    ensures var line := Spaces(k) + ['-', flag] + rest;
            && line == Spaces(k) + (['-', flag] + rest)
            && |line| >= k + 2 && line[k] == '-' && line[k + 1] == flag && line[k + 2..] == rest
  {
  }

  lemma NoLineTerminatorAfterSpaces(m: nat, trailer: string)
    requires NoLineTerminator(trailer)
    ensures NoLineTerminator(Spaces(m) + trailer)
  {
    var rest := Spaces(m) + trailer;
    forall i | 0 <= i < |rest| ensures !IsLineTerminator(rest[i]) {
      if i >= m {
        assert rest[i] == trailer[i - m];
      }
    }
  }

  /** A line of the first shape also has the second, with the argument as its trailer. */
  lemma WithArgumentAlsoWithout(line: string)
    requires MatchWithArgument(line).Some?
    ensures MatchWithoutArgument(line) == Some(MatchWithArgument(line).value)
  {
    var k := LeadingSpaces(line);
    var argument := MatchWithArgument(line).value.1;
    assert line[k + 3..] == argument;
    assert line[k + 2..] == [' '] + argument;
    assert forall i :: 0 <= i < |argument| ==> !IsLineTerminator(argument[i]) by {
      forall i | 0 <= i < |argument| ensures !IsLineTerminator(argument[i]) {
        assert IsWordChar(argument[i]);
      }
    }
    LeadingSpacesOf(1, argument);
    assert Spaces(1) + argument == [' '] + argument;
    assert (line[k + 2..])[1..] == argument;
  }

  /* ---- combineManPageLines ---- */

  /** `lines.map(line => line.trim())`. */
  function TrimAll(lines: seq<string>): (r: seq<string>)
    ensures |r| == |lines| && forall i :: 0 <= i < |r| ==> r[i] == Trim(lines[i])
  {
    seq(|lines|, i requires 0 <= i < |lines| => Trim(lines[i]))
  }

  /** What one trimmed line adds: itself without its final hyphen if it has one, else itself and a space. */
  function Piece(line: string): string
  {
    if EndsWith(line, "-") then line[..|line| - 1] else line + " "
  }

  /** The reduce of `combineManPageLines`, over lines already trimmed. */
  function Unwrap(lines: seq<string>): string
  {
    if lines == [] then ""
    else Unwrap(lines[..|lines| - 1]) + Piece(lines[|lines| - 1])
  }

  /** `combineManPageLines`: the trimmed lines run together, a hyphenated line joined to the next. */
  function CombineManPageLines(lines: seq<string>): (r: string)
    ensures lines == [] ==> r == ""
    ensures lines != [] && !EndsWith(Trim(lines[|lines| - 1]), "-") ==> r != [] && r[|r| - 1] == ' '
  {
    var ts := TrimAll(lines);
    assert lines != [] ==> ts[|ts| - 1] == Trim(lines[|lines| - 1]);
    Unwrap(ts)
  }

  lemma UnwrapSnoc(lines: seq<string>, line: string)
    ensures Unwrap(lines + [line]) == Unwrap(lines) + Piece(line)
  {
    assert (lines + [line])[..|lines|] == lines;
  }

  lemma {:induction false} UnwrapAppend(a: seq<string>, b: seq<string>)
    ensures Unwrap(a + b) == Unwrap(a) + Unwrap(b)
  {
    if b == [] {
      assert a + b == a;
    } else {
      var b', x := b[..|b| - 1], b[|b| - 1];
      LastSplit(b);
      UnwrapAppend(a, b');
      UnwrapAppendStep(a, b', x);
      RegroupRight(Unwrap(a + b), Unwrap(b), Unwrap(a), Unwrap(b'), Piece(x));
    }
  }

  /** One more line on the right adds its piece on both sides of `UnwrapAppend`. */
  lemma UnwrapAppendStep(a: seq<string>, b': seq<string>, x: string)
    ensures Unwrap(a + (b' + [x])) == Unwrap(a + b') + Piece(x)
    ensures Unwrap(b' + [x]) == Unwrap(b') + Piece(x)
  {
    assert a + (b' + [x]) == (a + b') + [x];
    UnwrapSnoc(a + b', x);
    UnwrapSnoc(b', x);
  }

  /** The reduce distributes over concatenation of the lines. */
  lemma CombineLinesAppend(a: seq<string>, b: seq<string>)
    ensures CombineManPageLines(a + b) == CombineManPageLines(a) + CombineManPageLines(b)
  {
    var l := TrimAll(a + b);
    var r := TrimAll(a) + TrimAll(b);
    forall i | 0 <= i < |l| ensures l[i] == r[i] {
      if i < |a| {
        assert (a + b)[i] == a[i];
      } else {
        assert (a + b)[i] == b[i - |a|];
      }
    }
    assert l == r;
    UnwrapAppend(TrimAll(a), TrimAll(b));
  }

  lemma {:induction false} UnwrapPlain(lines: seq<string>)
    requires lines != []
    requires forall i :: 0 <= i < |lines| ==> !EndsWith(lines[i], "-")
    ensures Unwrap(lines) == Join(lines, ' ') + " "
  {
    var n := |lines|;
    var before := lines[..n - 1];
    if n == 1 {
      assert before == [];
    } else {
      UnwrapPlain(before);
      assert lines == before + [lines[n - 1]];
      JoinSnoc(before, lines[n - 1], ' ');
    }
  }

  /** Without hyphenation the result is the trimmed lines joined by single spaces, plus one final space. */
  lemma CombinePlainLines(lines: seq<string>)
    requires lines != []
    requires forall i :: 0 <= i < |lines| ==> !EndsWith(Trim(lines[i]), "-")
    ensures CombineManPageLines(lines) == Join(TrimAll(lines), ' ') + " "
  {
    UnwrapPlain(TrimAll(lines));
  }

  /** A hyphenated line is joined to the next one without a space. */
  lemma HyphenatedLinesJoin(first: string, second: string)
    requires EndsWith(Trim(first), "-") && !EndsWith(Trim(second), "-")
    ensures CombineManPageLines([first, second]) == Trim(first)[..|Trim(first)| - 1] + Trim(second) + " "
  {
    var ts := TrimAll([first, second]);
    assert ts == [Trim(first)] + [Trim(second)];
    UnwrapSnoc([Trim(first)], Trim(second));
    UnwrapSnoc([], Trim(first));
    assert [] + [Trim(first)] == [Trim(first)];
  }

  /* ---- flag paragraphs to suggestions ---- */

  /**
   * The suggestion a flag paragraph yields, if any, from its first line and
   * the lines after it; the first pattern takes priority.
   */
  function ParagraphOption(first: string, rest: seq<string>): Option<Attributes>
  {
    match MatchWithArgument(first)
    case Some((flag, argument)) =>
      Some(Attributes(Some(['-', flag]), Some(['-', flag] + " " + argument), None,
                      Some(CombineManPageLines(rest)), Some(OptionStyle), Some(true), None))
    case None =>
      match MatchWithoutArgument(first)
      case Some((flag, trailer)) =>
        Some(Attributes(Some(['-', flag]), None, None,
                        Some(CombineManPageLines([trailer] + rest)), Some(OptionStyle), None, None))
      case None => None
  }

  /**
   * A paragraph yields a suggestion exactly when its first line has the second
   * shape; the option is that line's flag letter; a line of the first shape
   * also shows its argument and asks for a space after the completion.
   */
  lemma ParagraphOptionSpec(first: string, rest: seq<string>)
    ensures var option := ParagraphOption(first, rest);
            option.Some? <==> MatchWithoutArgument(first).Some?
    ensures var option := ParagraphOption(first, rest);
            option.Some? ==> && option.value.Value() == ['-', MatchWithoutArgument(first).value.0]
                             && option.value.EffectiveStyle() == OptionStyle
                             && (option.value.ShouldAddSpace() <==> MatchWithArgument(first).Some?)
    ensures var option := ParagraphOption(first, rest);
            MatchWithArgument(first).Some? ==>
              && option.value.DisplayValue() == ['-', MatchWithArgument(first).value.0, ' '] + MatchWithArgument(first).value.1
              && option.value.Description() == CombineManPageLines(rest)
    ensures var option := ParagraphOption(first, rest);
            MatchWithArgument(first).None? && option.Some? ==>
              && option.value.DisplayValue() == option.value.Value()
              && option.value.Description() == CombineManPageLines([MatchWithoutArgument(first).value.1] + rest)
  {
    if MatchWithArgument(first).Some? {
      WithArgumentAlsoWithout(first);
    }
  }

  /** What one paragraph contributes: its suggestion, if any (an empty paragraph has been filtered out before). */
  function ParagraphOptions(paragraph: seq<string>): seq<Attributes>
  {
    if paragraph == [] then []
    else match ParagraphOption(paragraph[0], paragraph[1..])
      case Some(option) => [option]
      case None => []
  }

  /** The suggestions of the flag paragraphs, in paragraph order. */
  function OptionsOf(paragraphs: seq<seq<string>>): (r: SuggestionList)
    ensures |r| <= |paragraphs|
  {
    if paragraphs == [] then []
    else OptionsOf(paragraphs[..|paragraphs| - 1]) + ParagraphOptions(paragraphs[|paragraphs| - 1])
  }

  /** The extraction loop. */
  method ExtractOptions(flagDescriptions: seq<seq<string>>) returns (suggestions: SuggestionList)
    requires forall i :: 0 <= i < |flagDescriptions| ==> flagDescriptions[i] != []
    ensures suggestions == OptionsOf(flagDescriptions)
  {
    suggestions := [];
    var i := 0;
    while i < |flagDescriptions|
      invariant 0 <= i <= |flagDescriptions|
      invariant suggestions == OptionsOf(flagDescriptions[..i])
    {
      var descriptions := flagDescriptions[i];
      OptionsOfPrefix(flagDescriptions, i);
      var option := ParagraphOption(descriptions[0], descriptions[1..]);
      if option.Some? {
        suggestions := suggestions + [option.value];
      }
      i := i + 1;
    }
    TakeAll(flagDescriptions);
  }

  /** One paragraph more extends the extraction by that paragraph's suggestion, if any. */
  lemma OptionsOfPrefix(paragraphs: seq<seq<string>>, i: nat)
    requires i < |paragraphs| && paragraphs[i] != []
    ensures OptionsOf(paragraphs[..i + 1]) ==
              OptionsOf(paragraphs[..i]) +
                match ParagraphOption(paragraphs[i][0], paragraphs[i][1..])
                case Some(option) => [option]
                case None => []
  {
    TakeOneMore(paragraphs, i);
    OptionsOfSnoc(paragraphs[..i], paragraphs[i]);
  }

  /** At most one suggestion per paragraph, in paragraph order: the extraction distributes over concatenation. */
  lemma {:induction false} OptionsOfAppend(a: seq<seq<string>>, b: seq<seq<string>>)
    ensures OptionsOf(a + b) == OptionsOf(a) + OptionsOf(b)
  {
    if b == [] {
      assert a + b == a;
    } else {
      var b', x := b[..|b| - 1], b[|b| - 1];
      LastSplit(b);
      OptionsOfAppend(a, b');
      OptionsOfAppendStep(a, b', x);
      RegroupRight(OptionsOf(a + b), OptionsOf(b), OptionsOf(a), OptionsOf(b'), ParagraphOptions(x));
    }
  }

  /** One more paragraph on the right adds its suggestions on both sides of `OptionsOfAppend`. */
  lemma OptionsOfAppendStep(a: seq<seq<string>>, b': seq<seq<string>>, x: seq<string>)
    ensures OptionsOf(a + (b' + [x])) == OptionsOf(a + b') + ParagraphOptions(x)
    ensures OptionsOf(b' + [x]) == OptionsOf(b') + ParagraphOptions(x)
  {
    assert a + (b' + [x]) == (a + b') + [x];
    OptionsOfSnoc(a + b', x);
    OptionsOfSnoc(b', x);
  }

  lemma OptionsOfSnoc(paragraphs: seq<seq<string>>, paragraph: seq<string>)
    ensures OptionsOf(paragraphs + [paragraph]) == OptionsOf(paragraphs) + ParagraphOptions(paragraph)
  {
    assert (paragraphs + [paragraph])[..|paragraphs|] == paragraphs;
  }

  /** Every extracted suggestion is a one-letter option. */
  lemma {:induction false} OptionsAreFlags(paragraphs: seq<seq<string>>)
    ensures forall s :: s in OptionsOf(paragraphs) ==>
              |s.Value()| == 2 && s.Value()[0] == '-' && IsWordChar(s.Value()[1]) && s.EffectiveStyle() == OptionStyle
  {
    if paragraphs != [] {
      OptionsAreFlags(paragraphs[..|paragraphs| - 1]);
    }
  }

  /* ---- manPageToOptions and manPageOptions ---- */

  const DescriptionSection := "DESCRIPTION"
  const NoDescription := "Cannot read property 'reduce' of undefined"

  function RetrievalError(command: string): string
  {
    "Error in retrieving man page: " + command
  }

  /** What `manPageToOptions(command)` resolves to, given what `man` printed. */
  function ManPageOptionsOf(command: string, stdout: string, stderr: string): (r: Result<SuggestionList>)
    ensures stderr != "" ==> r == Err(RetrievalError(command))
    ensures r.Ok? ==> forall s :: s in r.value ==>
              |s.Value()| == 2 && s.Value()[0] == '-' && IsWordChar(s.Value()[1]) && s.EffectiveStyle() == OptionStyle
  {
    if stderr != "" then Err(RetrievalError(command))
    else match SectionTable(ManLines(stdout))
      case Err(e) => Err(e)
      case Ok(table) =>
        if DescriptionSection !in table then Err(NoDescription)
        else
          OptionsAreFlags(FlagParagraphs(table[DescriptionSection]));
          Ok(OptionsOf(FlagParagraphs(table[DescriptionSection])))
  }

  /** `manPageToOptions` after the `execFile` call. */
  method ManPageToOptions(command: string, stdout: string, stderr: string) returns (r: Result<SuggestionList>)
    ensures r == ManPageOptionsOf(command, stdout, stderr)
  {
    if stderr != "" {
      return Err(RetrievalError(command));
    }
    var manContents := StripOverstrike(stdout);
    var manLines := Split(Trim(manContents), '\n');
    var sections := SplitSections(manLines);
    if sections.Err? {
      return Err(sections.error);
    }
    var manSections := sections.value;
    if DescriptionSection !in manSections {
      return Err(NoDescription);
    }
    var manDescriptionParagraphs := SplitParagraphs(manSections[DescriptionSection]);
    var flagDescriptions := Filter(manDescriptionParagraphs, NonEmpty);
    ParagraphsPartitionLines(manSections[DescriptionSection]);
    var suggestions := ExtractOptions(flagDescriptions);
    r := Ok(suggestions);
  }

  /** A page without a DESCRIPTION header rejects instead of resolving to no options; so does a blank page. */
  lemma MissingDescriptionRejects(command: string, stdout: string)
    requires DescriptionSection !in Headers(ManLines(stdout)) || AllWhitespace(StripOverstrike(stdout))
    ensures ManPageOptionsOf(command, stdout, "").Err?
  {
    var lines := ManLines(stdout);
    SectionsFailure(lines);
    FirstLineIsHeader(stdout);
    if SectionsOf(lines).Ok? {
      SectionsContents(lines);
    }
  }

  /** A successful extraction offers at most one option per non-blank DESCRIPTION paragraph, each a one-letter flag. */
  lemma ResolvedOptionsAreFlags(command: string, stdout: string, stderr: string)
    requires ManPageOptionsOf(command, stdout, stderr).Ok?
    ensures stderr == ""
    ensures var table := SectionTable(ManLines(stdout)).value;
            && DescriptionSection in table
            && |ManPageOptionsOf(command, stdout, stderr).value| <= |FlagParagraphs(table[DescriptionSection])|
    ensures forall s :: s in ManPageOptionsOf(command, stdout, stderr).value ==>
              |s.Value()| == 2 && s.Value()[0] == '-' && s.EffectiveStyle() == OptionStyle
  {
    var table := SectionTable(ManLines(stdout)).value;
    ParagraphsPartitionLines(table[DescriptionSection]);
    OptionsAreFlags(FlagParagraphs(table[DescriptionSection]));
  }

  /**
   * `manPageOptions(command)`: `unique` over a `contextIndependent` cache. The
   * page is read and parsed on the first call only (`stdout` and `stderr` are
   * what `man` would print now); every call filters the cached outcome
   * against the current context's arguments.
   */
  method ManPageOptions(cache: ContextIndependent, command: string, context: Context, stdout: string, stderr: string)
    returns (r: Result<SuggestionList>)
    requires cache.Valid()
    modifies cache
    ensures cache.Valid()
    ensures old(cache.cache).None? ==> cache.cache == Some(ManPageOptionsOf(command, stdout, stderr))
    ensures old(cache.cache).Some? ==> cache.cache == old(cache.cache)
    ensures r == WithoutBound(context, cache.cache.value)
  {
    var current: Result<SuggestionList> := Err("");
    if cache.cache.None? {
      current := ManPageToOptions(command, stdout, stderr);
    }
    var outcome := cache.Call(context, current);
    r := WithoutBound(context, outcome);
  }
}
