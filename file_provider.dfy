/**
 * The legacy file provider of `providers/File.ts`: lists the directory the
 * last argument points into, describes every entry, scores the entries against
 * the base name being typed and keeps the ten best.
 *
 * The listing, the fuzzy `score`, the path helpers and `humanFileSize` are
 * outside the model and arrive as values; the score is an integer here.
 */
module FileProvider {
  import opened Wrappers
  import opened Seqs
  import opened Text
  import opened Interfaces

  /** The suggestion record this provider builds; `type` is always "file". */
  datatype LegacySuggestion = LegacySuggestion(
    value: string,
    score: int,
    synopsis: string,
    description: string,
    kind: string,
    partial: bool,
    prefix: Option<string>)

  /** What the provider reads from the prompt. */
  datatype PromptState = PromptState(
    expandedCount: nat,   // `prompt.expanded.length`
    lastArgument: string,
    cwd: string,
    commandName: string)

  /** The helpers from `Utils` and `path` the provider calls. */
  datatype PathHelpers = PathHelpers(
    baseName: string -> string,
    dirName: string -> string,
    join: (string, string) -> string,
    normalizeDir: string -> string,
    humanFileSize: nat -> string)

  /** `File.filter(command)`: `cd` only takes directories; every other command takes everything. */
  function FileFilter(command: string): (r: FileInfo -> bool)
    ensures forall info :: r(info) <==> command != "cd" || info.stat.IsDirectory()
  {
    if command == "cd" then (info: FileInfo) => info.stat.IsDirectory()
    else (info: FileInfo) => true
  }

  /** `Path.isAbsolute` on a POSIX path. */
  predicate IsAbsolute(path: string)
  {
    StartsWith(path, "/")
  }

  /** The directory to list: the argument's directory part, resolved against the working directory when relative. */
  function SearchDirectory(prompt: PromptState, helpers: PathHelpers): (r: string)
    ensures IsAbsolute(prompt.lastArgument) ==> r == helpers.dirName(prompt.lastArgument)
    ensures !IsAbsolute(prompt.lastArgument) ==> r == helpers.join(prompt.cwd, helpers.dirName(prompt.lastArgument))
  {
    var dirName := helpers.dirName(prompt.lastArgument);
    if IsAbsolute(prompt.lastArgument) then dirName else helpers.join(prompt.cwd, dirName)
  }

  /** `"Mode: " + ("0" + (mode & 511).toString(8))`. */
  function ModeDescription(mode: nat): (r: string)
    ensures StartsWith(r, "Mode: 0")
    ensures r == "Mode: 0" + Octal(mode % 512)
    ensures OctalValue(r[7..]) == mode % 512
  {
    OctalRoundTrip(mode % 512);
    var r := "Mode: 0" + Octal(mode % 512);
    assert r[7..] == Octal(mode % 512);
    r
  }

  /** The suggestion for one listed entry, before scoring. */
  function EntrySuggestion(info: FileInfo, prompt: PromptState, helpers: PathHelpers, searchDirectory: string): (r: LegacySuggestion)
    ensures r.score == 0 && r.synopsis == "" && r.kind == "file"
    ensures r.partial <==> info.stat.IsDirectory()
    ensures info.stat.IsDirectory() ==> r.value == helpers.normalizeDir(info.name) && r.description == ModeDescription(info.stat.mode)
    ensures !info.stat.IsDirectory() ==>
              r.value == info.name && r.description == ModeDescription(info.stat.mode) + "; Size: " + helpers.humanFileSize(info.stat.size)
    ensures r.prefix.Some? <==> searchDirectory != prompt.cwd
    ensures r.prefix.Some? ==> r.prefix.value == helpers.dirName(prompt.lastArgument)
  {
    var description := ModeDescription(info.stat.mode);
    var name := if info.stat.IsDirectory() then helpers.normalizeDir(info.name) else info.name;
    var description := if info.stat.IsDirectory() then description
                       else description + "; Size: " + helpers.humanFileSize(info.stat.size);
    var prefix := if searchDirectory != prompt.cwd then Some(helpers.dirName(prompt.lastArgument)) else None;
    LegacySuggestion(name, 0, "", description, "file", info.stat.IsDirectory(), prefix)
  }

  /** `all`: the entries the command's filter admits, in listing order, as suggestions. */
  function Entries(listing: seq<FileInfo>, prompt: PromptState, helpers: PathHelpers, searchDirectory: string): (r: seq<LegacySuggestion>)
    ensures var kept := Filter(listing, FileFilter(prompt.commandName));
            |r| == |kept| && forall i :: 0 <= i < |r| ==> r[i] == EntrySuggestion(kept[i], prompt, helpers, searchDirectory)
  {
    var kept := Filter(listing, FileFilter(prompt.commandName));
    seq(|kept|, i requires 0 <= i < |kept| => EntrySuggestion(kept[i], prompt, helpers, searchDirectory))
  }

  /** The score every entry gets when no base name is being typed. */
  function UnitScore(value: string, baseName: string): int
  {
    1
  }

  function ScoreOf(suggestion: LegacySuggestion): int
  {
    suggestion.score
  }

  /** The suggestions with their scores overwritten by `score(value, baseName)`. */
  function Rescored(all: seq<LegacySuggestion>, score: (string, string) -> int, baseName: string): (r: seq<LegacySuggestion>)
    ensures |r| == |all|
    ensures forall i :: 0 <= i < |r| ==> r[i] == all[i].(score := score(all[i].value, baseName))
  {
    seq(|all|, i requires 0 <= i < |all| => all[i].(score := score(all[i].value, baseName)))
  }

  /** `_.each(suggestion => suggestion.score = …)`: every score overwritten in place. */
  method AssignScores(suggestions: array<LegacySuggestion>, score: (string, string) -> int, baseName: string)
    modifies suggestions
    ensures suggestions[..] == Rescored(old(suggestions[..]), score, baseName)
  {
    var i := 0;
    while i < suggestions.Length
      invariant 0 <= i <= suggestions.Length
      invariant forall j :: 0 <= j < i ==>
                  suggestions[j] == old(suggestions[j]).(score := score(old(suggestions[j]).value, baseName))
      invariant forall j :: i <= j < suggestions.Length ==> suggestions[j] == old(suggestions[j])
    {
      suggestions[i] := suggestions[i].(score := score(suggestions[i].value, baseName));
      i := i + 1;
    }
  }

  /** `.sortBy('score').reverse().take(10)`. */
  function Ranked(scored: seq<LegacySuggestion>): (r: seq<LegacySuggestion>)
    ensures |r| == if |scored| < 10 then |scored| else 10
  {
    assert |SortBy(scored, ScoreOf)| == |multiset(SortBy(scored, ScoreOf))| == |multiset(scored)| == |scored|;
    Take(Reverse(SortBy(scored, ScoreOf)), 10)
  }

  /**
   * What `getSuggestions` resolves to. `listing` stands for `Utils.stats`: a
   * directory missing from it cannot be listed, and the provider rejects.
   */
  function FileSuggestionsOf(prompt: PromptState, helpers: PathHelpers, listing: map<string, seq<FileInfo>>,
                             score: (string, string) -> int, limit: nat): (r: Result<seq<LegacySuggestion>>)
    ensures prompt.expandedCount < 2 ==> r == Ok([])
    ensures prompt.expandedCount >= 2 ==> (r.Ok? <==> SearchDirectory(prompt, helpers) in listing)
    ensures r.Err? ==> r.error == "cannot list " + SearchDirectory(prompt, helpers)
    ensures r.Ok? && helpers.baseName(prompt.lastArgument) != "" ==> |r.value| <= 10
    ensures r.Ok? && helpers.baseName(prompt.lastArgument) == "" ==> |r.value| <= limit
  {
    if prompt.expandedCount < 2 then Ok([])
    else
      var searchDirectory := SearchDirectory(prompt, helpers);
      if searchDirectory !in listing then Err("cannot list " + searchDirectory)
      else
        var baseName := helpers.baseName(prompt.lastArgument);
        var all := Entries(listing[searchDirectory], prompt, helpers, searchDirectory);
        if baseName != "" then Ok(Ranked(Rescored(all, score, baseName)))
        else Ok(Take(Rescored(all, UnitScore, baseName), limit))
  }

  /**
   * `File.getSuggestions`. `listing` stands for `Utils.stats`, `score` for
   * fuzzaldrin's `score` and `limit` for `Autocompletion.limit`.
   */
  method GetSuggestions(prompt: PromptState, helpers: PathHelpers, listing: map<string, seq<FileInfo>>,
                        score: (string, string) -> int, limit: nat) returns (prepared: Result<seq<LegacySuggestion>>)
    ensures prompt.expandedCount < 2 ==> prepared == Ok([])
    ensures prepared == FileSuggestionsOf(prompt, helpers, listing, score, limit)
  {
    if prompt.expandedCount < 2 {
      return Ok([]);
    }
    var baseName := helpers.baseName(prompt.lastArgument);
    var searchDirectory := SearchDirectory(prompt, helpers);
    if searchDirectory !in listing {
      return Err("cannot list " + searchDirectory);
    }
    var fileInfos := listing[searchDirectory];
    var all := Entries(fileInfos, prompt, helpers, searchDirectory);
    var suggestions := new LegacySuggestion[|all|](i requires 0 <= i < |all| => all[i]);
    assert suggestions[..] == all;
    if baseName != "" {
      AssignScores(suggestions, score, baseName);
      prepared := Ok(Take(Reverse(SortBy(suggestions[..], ScoreOf)), 10));
    } else {
      AssignScores(suggestions, UnitScore, baseName);
      prepared := Ok(Take(suggestions[..], limit));
    }
  }

  /* ---- what the ranking guarantees ---- */

  /** Reversing an ascending sequence gives a non-increasing one. */
  lemma ReverseDescending(s: seq<LegacySuggestion>)
    requires SortedBy(s, ScoreOf)
    ensures forall i, j :: 0 <= i < j < |Reverse(s)| ==> Reverse(s)[i].score >= Reverse(s)[j].score
  {
    forall i, j | 0 <= i < j < |Reverse(s)|
      ensures Reverse(s)[i].score >= Reverse(s)[j].score
    {
      assert ScoreOf(s[|s| - 1 - j]) <= ScoreOf(s[|s| - 1 - i]);
    }
  }

  /** The ranked suggestions come in non-increasing score order. */
  lemma RankedDescending(scored: seq<LegacySuggestion>)
    ensures forall i, j :: 0 <= i < j < |Ranked(scored)| ==> Ranked(scored)[i].score >= Ranked(scored)[j].score
  {
    var reversed := Reverse(SortBy(scored, ScoreOf));
    SortByIsSorted(scored, ScoreOf);
    ReverseDescending(SortBy(scored, ScoreOf));
    assert Ranked(scored) <= reversed;
  }

  /** Every ranked suggestion is one of the scored entries, none of them twice over. */
  lemma RankedFromEntries(scored: seq<LegacySuggestion>)
    ensures multiset(Ranked(scored)) <= multiset(scored)
  {
    var reversed := Reverse(SortBy(scored, ScoreOf));
    assert multiset(reversed) == multiset(SortBy(scored, ScoreOf)) by {
      ReverseMultiset(SortBy(scored, ScoreOf));
    }
    var n := if |reversed| < 10 then |reversed| else 10;
    assert reversed == Ranked(scored) + reversed[n..];
  }

  /**
   * Only the ten best are kept: an entry left out means there were more than
   * ten, and it scores no higher than the last one kept.
   */
  lemma RankedAreBest(scored: seq<LegacySuggestion>)
    ensures var r := Ranked(scored);
            forall s :: s in multiset(scored) - multiset(r) ==> |r| == 10 && s.score <= r[|r| - 1].score
  {
    var sorted := SortBy(scored, ScoreOf);
    var reversed := Reverse(sorted);
    ReverseMultiset(sorted);
    SortByIsSorted(scored, ScoreOf);
    ReverseDescending(sorted);
    if |reversed| <= 10 {
      assert Ranked(scored) == reversed;
      assert multiset(scored) - multiset(Ranked(scored)) == multiset{};
    } else {
      assert Ranked(scored) == reversed[..10];
      DroppedScoreLower(reversed, 10);
    }
  }

  /** In a non-increasing sequence, whatever lies past the first `n` scores at most the `n`-th. */
  lemma DroppedScoreLower(d: seq<LegacySuggestion>, n: nat)
    requires 0 < n <= |d|
    requires forall i, j :: 0 <= i < j < |d| ==> d[i].score >= d[j].score
    ensures forall s :: s in multiset(d) - multiset(d[..n]) ==> s.score <= d[n - 1].score
  {
    assert d == d[..n] + d[n..];
    assert multiset(d) == multiset(d[..n]) + multiset(d[n..]);
    forall s | s in multiset(d) - multiset(d[..n]) ensures s.score <= d[n - 1].score {
      assert s in d[n..];
      var j :| 0 <= j < |d[n..]| && d[n..][j] == s;
      assert d[n + j] == s;
    }
  }

  lemma {:induction false} ReverseMultiset<T>(s: seq<T>)
    ensures multiset(Reverse(s)) == multiset(s)
  {
    if s != [] {
      ReverseMultiset(s[1..]);
      assert s == [s[0]] + s[1..];
    }
  }

  /**
   * Equal scores come out in reverse listing order: before the cut to ten,
   * the entries of every score are exactly those of the listing, reversed.
   */
  lemma RankedTiesReversed(scored: seq<LegacySuggestion>, k: int)
    ensures Ranked(scored) <= Reverse(SortBy(scored, ScoreOf))
    ensures WithKey(Reverse(SortBy(scored, ScoreOf)), ScoreOf, k) == Reverse(WithKey(scored, ScoreOf, k))
  {
    WithKeyReverse(SortBy(scored, ScoreOf), ScoreOf, k);
    SortByIsStable(scored, ScoreOf, k);
  }

  /**
   * Once the directory is listed, with a base name the result is the ten best
   * entries by score; without one it is the first `limit` entries in listing
   * order, each scored 1.
   */
  lemma FileSuggestionsShape(prompt: PromptState, helpers: PathHelpers, listing: map<string, seq<FileInfo>>,
                             score: (string, string) -> int, limit: nat)
    requires prompt.expandedCount >= 2
    ensures var searchDirectory := SearchDirectory(prompt, helpers);
            var baseName := helpers.baseName(prompt.lastArgument);
            var r := FileSuggestionsOf(prompt, helpers, listing, score, limit);
            searchDirectory in listing ==>
              var all := Entries(listing[searchDirectory], prompt, helpers, searchDirectory);
              && (baseName != "" ==> TenBest(r.value, all, score, baseName))
              && (baseName == "" ==> FirstScoredOne(r.value, all, limit))
  {
    var searchDirectory := SearchDirectory(prompt, helpers);
    var baseName := helpers.baseName(prompt.lastArgument);
    if searchDirectory in listing {
      var all := Entries(listing[searchDirectory], prompt, helpers, searchDirectory);
      if baseName != "" {
        RankedRescored(all, score, baseName);
      } else {
        ListedRescored(all, baseName, limit);
      }
    }
  }

  /**
   * `r` is the ten best of `all` rescored by `score(value, baseName)`: as many
   * as there are up to ten, best first, each with its new score, none invented
   * or repeated, and none left out that scores above the last one kept.
   */
  ghost predicate TenBest(r: seq<LegacySuggestion>, all: seq<LegacySuggestion>, score: (string, string) -> int,
                          baseName: string)
  {
    && |r| == (if |all| < 10 then |all| else 10)
    && (forall i, j :: 0 <= i < j < |r| ==> r[i].score >= r[j].score)
    && (forall s :: s in r ==> s.score == score(s.value, baseName))
    && multiset(r) <= multiset(Rescored(all, score, baseName))
    && (forall s :: s in multiset(Rescored(all, score, baseName)) - multiset(r) ==>
          |r| == 10 && s.score <= r[|r| - 1].score)
  }

  /** `r` is the first `limit` entries of `all` in listing order, each scored 1. */
  ghost predicate FirstScoredOne(r: seq<LegacySuggestion>, all: seq<LegacySuggestion>, limit: nat)
  {
    && |r| == (if |all| < limit then |all| else limit)
    && forall i :: 0 <= i < |r| ==> r[i] == all[i].(score := 1)
  }

  /** The ranking of the rescored entries is their ten best. */
  lemma RankedRescored(all: seq<LegacySuggestion>, score: (string, string) -> int, baseName: string)
    ensures TenBest(Ranked(Rescored(all, score, baseName)), all, score, baseName)
  {
    var scored := Rescored(all, score, baseName);
    var r := Ranked(scored);
    RankedDescending(scored);
    RankedFromEntries(scored);
    RankedAreBest(scored);
    forall s | s in r ensures s.score == score(s.value, baseName) {
      assert s in multiset(scored);
      var i :| 0 <= i < |scored| && scored[i] == s;
    }
  }

  /** Without a base name: the first `limit` entries in listing order, each scored 1. */
  lemma ListedRescored(all: seq<LegacySuggestion>, baseName: string, limit: nat)
    ensures FirstScoredOne(Take(Rescored(all, UnitScore, baseName), limit), all, limit)
  {
  }
}
