/**
 * The provider framework of `Common.ts`: a provider maps a completion context
 * to a resolved or rejected list of suggestions; combinators build providers
 * from providers; the file and environment-variable providers and the flag
 * providers are the building blocks.
 *
 * Everything a provider would fetch asynchronously (directory listings, the
 * environment, the command's bound arguments) arrives as part of the context,
 * so every provider is a function of its context. The path helpers the source
 * imports from its utilities are carried as function values in `Host`.
 */
module Providers {
  import opened Wrappers
  import opened Seqs
  import opened Text
  import opened Interfaces
  import opened Suggestions

  /** The host collaborators outside this model. */
  datatype Host = Host(
    listing: map<string, seq<FileInfo>>,         // `statsIn`: a missing path rejects
    directoryName: string -> string,             // `directoryName`
    resolveDirectory: (string, string) -> string, // `resolveDirectory`
    joinPath: (string, string) -> string,        // `joinPath`
    extname: string -> string,                   // `Path.extname`
    isImage: string -> bool)                     // `isImage`

  /**
   * `AutocompletionContext`: the token under the caret, the values the command
   * already has as arguments, the working directory and the environment (in
   * its iteration order).
   */
  datatype Context = Context(
    argument: string,
    boundArguments: set<string>,
    pwd: string,
    environment: seq<(string, string)>,
    host: Host)

  /** `context.argument.command.hasArgument(value, context.argument)`. */
  predicate HasArgument(context: Context, value: string)
  {
    value in context.boundArguments
  }

  type SuggestionList = seq<Attributes>

  /** `AutocompletionProvider`: a promise of suggestions, resolved (`Ok`) or rejected (`Err`). */
  type Provider = Context -> Result<SuggestionList>

  /* ---- mk, emptyProvider, mapSuggestions ---- */

  /** `mk` labels a function as a provider and changes nothing. */
  function Mk(provider: Provider): (r: Provider)
    ensures forall context :: r(context) == provider(context)
  {
    provider
  }

  /** `emptyProvider` always resolves to no suggestions. */
  function EmptyProvider(): (r: Provider)
    ensures forall context :: r(context) == Ok([])
  {
    (context: Context) => Ok([])
  }

  /** `mapSuggestions`: applies `mapper` to every suggestion, keeping order and count; a rejection passes through. */
  function MapResult(result: Result<SuggestionList>, mapper: Attributes -> Attributes): (r: Result<SuggestionList>)
    ensures r.Ok? <==> result.Ok?
    ensures r.Err? ==> r.error == result.error
    ensures r.Ok? ==> |r.value| == |result.value| &&
                      forall i :: 0 <= i < |r.value| ==> r.value[i] == mapper(result.value[i])
  {
    match result
    case Err(e) => Err(e)
    case Ok(s) => Ok(seq(|s|, i requires 0 <= i < |s| => mapper(s[i])))
  }

  function MapSuggestions(provider: Provider, mapper: Attributes -> Attributes): (r: Provider)
    ensures forall context :: r(context).Ok? <==> provider(context).Ok?
    ensures forall context :: r(context).Err? ==> r(context).error == provider(context).error
    ensures forall context :: r(context).Ok? ==>
              && |r(context).value| == |provider(context).value|
              && forall i :: 0 <= i < |r(context).value| ==> r(context).value[i] == mapper(provider(context).value[i])
  {
    (context: Context) => MapResult(provider(context), mapper)
  }

  /* ---- unique ---- */

  function NotBound(context: Context): Attributes -> bool
  {
    (suggestion: Attributes) => !HasArgument(context, suggestion.Value())
  }

  /**
   * What `unique` does to a provider's outcome: keeps, in order, the suggestions
   * whose value is not already an argument; a rejection passes through.
   */
  function WithoutBound(context: Context, result: Result<SuggestionList>): (r: Result<SuggestionList>)
    ensures r.Ok? <==> result.Ok?
    ensures r.Err? ==> r == result
    ensures r.Ok? ==> r.value == Filter(result.value, NotBound(context))
    ensures r.Ok? ==> forall s :: s in r.value <==> s in result.value && !HasArgument(context, s.Value())
  {
    match result
    case Err(e) => Err(e)
    case Ok(s) => Ok(Filter(s, NotBound(context)))
  }

  /** `unique(provider)`. */
  function Unique(provider: Provider): (r: Provider)
    ensures forall context :: r(context).Ok? <==> provider(context).Ok?
    ensures forall context :: provider(context).Err? ==> r(context) == provider(context)
    ensures forall context :: r(context).Ok? ==> |r(context).value| <= |provider(context).value|
  {
    (context: Context) => WithoutBound(context, provider(context))
  }

  /** Applying `unique` twice is applying it once. */
  lemma UniqueIdempotent(provider: Provider, context: Context)
    ensures Unique(Unique(provider))(context) == Unique(provider)(context)
  {
    var result := provider(context);
    if result.Ok? {
      FilterIdempotent(result.value, NotBound(context));
    }
  }

  /** No suggestion `unique` lets through is already an argument, and every other one is kept. */
  lemma UniqueDropsExactlyBound(provider: Provider, context: Context)
    requires provider(context).Ok?
    ensures Unique(provider)(context).Ok?
    ensures forall s :: s in Unique(provider)(context).value <==>
                          s in provider(context).value && !HasArgument(context, s.Value())
  {
  }

  /* ---- combine ---- */

  /** What every provider of the list produces for one context, in list order. */
  function Outcomes(providers: seq<Provider>, context: Context): (r: seq<Result<SuggestionList>>)
    ensures |r| == |providers|
    ensures forall i :: 0 <= i < |r| ==> r[i] == providers[i](context)
  {
    seq(|providers|, i requires 0 <= i < |providers| => providers[i](context))
  }

  /**
   * `Promise.all` followed by `_.flatten`: resolves to the concatenation in list
   * order when every outcome resolved, and rejects when any of them rejected.
   */
  function All(outcomes: seq<Result<SuggestionList>>): (r: Result<SuggestionList>)
    ensures r.Ok? <==> forall i :: 0 <= i < |outcomes| ==> outcomes[i].Ok?
    ensures r.Err? ==> exists i :: 0 <= i < |outcomes| && outcomes[i] == Err(r.error)
  {
    if outcomes == [] then Ok([])
    else match outcomes[0]
      case Err(e) => Err(e)
      case Ok(first) =>
        match All(outcomes[1..])
        case Err(e) => Err(e)
        case Ok(rest) => Ok(first + rest)
  }

  /** The values of a list of resolved outcomes. */
  function Values(outcomes: seq<Result<SuggestionList>>): seq<SuggestionList>
    requires forall i :: 0 <= i < |outcomes| ==> outcomes[i].Ok?
  {
    seq(|outcomes|, i requires 0 <= i < |outcomes| => outcomes[i].value)
  }

  /** When everything resolved, `All` is exactly the flattening, so its length is the sum of the lengths. */
  lemma {:induction false} AllIsFlatten(outcomes: seq<Result<SuggestionList>>)
    requires forall i :: 0 <= i < |outcomes| ==> outcomes[i].Ok?
    ensures All(outcomes) == Ok(Flatten(Values(outcomes)))
    ensures |All(outcomes).value| == SumOfLengths(Values(outcomes))
  {
    if outcomes != [] {
      AllIsFlatten(outcomes[1..]);
      assert Values(outcomes[1..]) == Values(outcomes)[1..];
    }
    FlattenLength(Values(outcomes));
  }

  /** `combine(providers)`. */
  function Combine(providers: seq<Provider>): (r: Provider)
    ensures forall context :: r(context).Ok? <==> forall i :: 0 <= i < |providers| ==> providers[i](context).Ok?
    ensures forall context :: r(context).Err? ==>
              exists i :: 0 <= i < |providers| && providers[i](context) == Err(r(context).error)
  {
    (context: Context) => All(Outcomes(providers, context))
  }

  /** `combine([A, B])` resolves to A's suggestions followed by B's, and rejects when either rejects. */
  lemma CombineTwo(a: Provider, b: Provider, context: Context)
    ensures Combine([a, b])(context).Ok? <==> a(context).Ok? && b(context).Ok?
    ensures a(context).Ok? && b(context).Ok? ==>
              Combine([a, b])(context).value == a(context).value + b(context).value
  {
    var outcomes := Outcomes([a, b], context);
    assert Combine([a, b])(context) == All(outcomes);
    assert outcomes[0] == a(context) && outcomes[1] == b(context);
    assert outcomes[1..] == [b(context)];
    assert outcomes[1..][1..] == [];
    assert All(outcomes[1..][1..]) == Ok([]);
    if b(context).Ok? {
      assert All(outcomes[1..]) == Ok(b(context).value + []);
    }
  }

  /** Combining two lists of providers concatenates their results. */
  lemma {:induction false} CombineAppend(ps: seq<Provider>, qs: seq<Provider>, context: Context)
    requires Combine(ps)(context).Ok? && Combine(qs)(context).Ok?
    ensures Combine(ps + qs)(context) == Ok(Combine(ps)(context).value + Combine(qs)(context).value)
  {
    AllAppend(Outcomes(ps, context), Outcomes(qs, context));
    assert Outcomes(ps + qs, context) == Outcomes(ps, context) + Outcomes(qs, context);
  }

  lemma {:induction false} AllAppend(xs: seq<Result<SuggestionList>>, ys: seq<Result<SuggestionList>>)
    requires All(xs).Ok? && All(ys).Ok?
    ensures All(xs + ys) == Ok(All(xs).value + All(ys).value)
  {
    if xs != [] {
      assert (xs + ys)[0] == xs[0] && xs[0].Ok?;
      assert (xs + ys)[1..] == xs[1..] + ys;
      assert All(xs[1..]).Ok?;
      var first := xs[0].value;
      assert All(xs) == Ok(first + All(xs[1..]).value);
      AllAppend(xs[1..], ys);
      assert All(xs + ys) == Ok(first + All(xs[1..] + ys).value);
      assert first + (All(xs[1..]).value + All(ys).value) == (first + All(xs[1..]).value) + All(ys).value;
    } else {
      assert xs + ys == ys;
      assert All(xs).value + All(ys).value == All(ys).value;
    }
  }

  /* ---- contextIndependent ---- */

  /**
   * `contextIndependent(provider)`: `_.memoize` with a constant key. The first
   * call invokes the wrapped provider and stores the promise it returns,
   * resolved or rejected; every later call returns that stored outcome,
   * whatever the context.
   */
  class ContextIndependent {
    var cache: Option<Result<SuggestionList>>
    ghost var invocations: nat

    ghost predicate Valid()
      reads this
    {
      invocations == if cache.Some? then 1 else 0
    }

    constructor ()
      ensures Valid() && cache == None && invocations == 0
    {
      cache := None;
      invocations := 0;
    }

    /**
     * One call. `current` is what the wrapped provider would produce if it
     * were invoked now; it is used only when nothing is cached yet.
     */
    method Call(context: Context, current: Result<SuggestionList>) returns (r: Result<SuggestionList>)
      requires Valid()
      modifies this
      ensures Valid()
      ensures invocations <= 1
      ensures old(cache).None? ==> r == current && cache == Some(current) && invocations == 1
      ensures old(cache).Some? ==> r == old(cache).value && cache == old(cache) && invocations == old(invocations)
    {
      if cache.None? {
        cache := Some(current);
        invocations := invocations + 1;
      }
      r := cache.value;
    }
  }

  /* ---- the file providers ---- */

  /** `directory.replace(/\/$/, "")`: one trailing slash removed. */
  function StripTrailingSlash(directory: string): (r: string)
    ensures EndsWith(directory, "/") ==> r + "/" == directory
    ensures !EndsWith(directory, "/") ==> r == directory
  {
    if directory != [] && directory[|directory| - 1] == '/' then directory[..|directory| - 1] else directory
  }

  /** The parent-directory suggestion that goes up `levels` directories. */
  function ParentSuggestion(parts: seq<string>, levels: nat): Attributes
    requires levels < |parts|
  {
    var ancestor := Join(parts[..|parts| - levels], '/');
    Attributes(Some(Repeat("../", levels)), None, None,
               Some(if ancestor == "" then "/" else ancestor), Some(DirectoryStyle), None, None)
  }

  /**
   * The parent-folder branch of `filesSuggestions`: one suggestion per
   * ancestor of `directory`; the n-th goes up n levels and describes the
   * ancestor it reaches ("/" for the root).
   */
  function ParentDirectories(directory: string): (r: SuggestionList)
    ensures var parts := Split(StripTrailingSlash(directory), '/');
            && |r| == |parts| - 1
            && forall n :: 1 <= n < |parts| ==>
                 && r[n - 1].Value() == Repeat("../", n)
                 && r[n - 1].Description() ==
                      (if Join(parts[..|parts| - n], '/') == "" then "/" else Join(parts[..|parts| - n], '/'))
                 && r[n - 1].EffectiveStyle() == DirectoryStyle
  {
    var parts := Split(StripTrailingSlash(directory), '/');
    seq(|parts| - 1, i requires 0 <= i < |parts| - 1 => ParentSuggestion(parts, i + 1))
  }

  /** `info.name.startsWith(".") ? basePath.startsWith(".") : true`. */
  predicate Visible(info: FileInfo, basePath: string)
  {
    StartsWith(info.name, ".") ==> StartsWith(basePath, ".")
  }

  /** `String.prototype.slice(start)` for a non-negative start. */
  function SliceFrom(s: string, start: nat): (r: string)
    ensures start <= |s| ==> r == s[start..]
    ensures start > |s| ==> r == ""
  {
    if start <= |s| then s[start..] else ""
  }

  /** The entries the listing branch keeps, in listing order. */
  function Selected(entries: seq<FileInfo>, basePath: string, filter: FileInfo -> bool): (r: seq<FileInfo>)
    ensures forall info :: info in r <==>
              info in entries && Visible(info, basePath) && (info.stat.IsDirectory() || filter(info))
  {
    var visible := Filter(entries, (info: FileInfo) => Visible(info, basePath));
    Filter(visible, (info: FileInfo) => info.stat.IsDirectory() || filter(info))
  }

  /** The suggestion built for one kept entry. */
  function EntrySuggestion(info: FileInfo, tokenDirectory: string, directoryPath: string, host: Host): (r: Attributes)
    ensures info.stat.IsDirectory() ==>
              && r.Value() == host.joinPath(tokenDirectory, info.name + "/")
              && r.DisplayValue() == info.name + "/"
              && r.EffectiveStyle() == DirectoryStyle
    ensures !info.stat.IsDirectory() ==>
              && r.Value() == host.joinPath(tokenDirectory, info.name)
              && (info.name != [] ==> r.DisplayValue() == info.name)
              && r.EffectiveStyle() == FileStyleFor(host.extname(info.name), host.isImage(host.extname(info.name)),
                                                    host.joinPath(directoryPath, info.name))
  {
    if info.stat.IsDirectory() then
      Attributes(Some(host.joinPath(tokenDirectory, info.name + "/")), Some(info.name + "/"),
                 None, None, Some(DirectoryStyle), None, None)
    else
      var extension := host.extname(info.name);
      Attributes(Some(host.joinPath(tokenDirectory, info.name)), Some(info.name), None, None,
                 Some(FileStyleFor(extension, host.isImage(extension), host.joinPath(directoryPath, info.name))),
                 None, None)
  }

  /**
   * `filesSuggestions(filter)(tokenValue, directory)`. A token ending in ".."
   * gets the parent folders; otherwise the token's directory part is listed and
   * every visible entry that is a directory or passes `filter` becomes a
   * suggestion, in listing order. A missing directory rejects.
   */
  function FilesSuggestions(filter: FileInfo -> bool, tokenValue: string, directory: string, host: Host): (r: Result<SuggestionList>)
    ensures EndsWith(tokenValue, "..") ==> r == Ok(ParentDirectories(directory))
    ensures !EndsWith(tokenValue, "..") ==>
              var tokenDirectory := host.directoryName(tokenValue);
              var directoryPath := host.resolveDirectory(directory, tokenDirectory);
              && (r.Ok? <==> directoryPath in host.listing)
              && (r.Ok? ==>
                    var kept := Selected(host.listing[directoryPath], SliceFrom(tokenValue, |tokenDirectory|), filter);
                    && |r.value| == |kept|
                    && forall i :: 0 <= i < |kept| ==>
                         r.value[i] == EntrySuggestion(kept[i], tokenDirectory, directoryPath, host))
  {
    if EndsWith(tokenValue, "..") then Ok(ParentDirectories(directory))
    else
      var tokenDirectory := host.directoryName(tokenValue);
      var basePath := SliceFrom(tokenValue, |tokenDirectory|);
      var directoryPath := host.resolveDirectory(directory, tokenDirectory);
      if directoryPath !in host.listing then Err("cannot list " + directoryPath)
      else
        var kept := Selected(host.listing[directoryPath], basePath, filter);
        Ok(seq(|kept|, i requires 0 <= i < |kept| => EntrySuggestion(kept[i], tokenDirectory, directoryPath, host)))
  }

  /** `filesSuggestionsProvider(filter)`, listing relative to `directory` (the working directory by default). */
  function FilesSuggestionsProviderIn(filter: FileInfo -> bool, directory: Option<string>): (r: Provider)
    ensures directory.None? ==>
              forall context :: r(context) == FilesSuggestions(filter, context.argument, context.pwd, context.host)
    ensures directory.Some? ==>
              forall context :: r(context) == FilesSuggestions(filter, context.argument, directory.value, context.host)
  {
    (context: Context) => FilesSuggestions(filter, context.argument, directory.GetOr(context.pwd), context.host)
  }

  /** `modeToPermissions(mode).execute.owner`: the owner-execute bit, 0o100. */
  predicate OwnerExecutable(mode: nat)
  {
    (mode / 64) % 2 == 1
  }

  /** The filter of `executableFilesSuggestions`: regular files the owner may execute. */
  predicate IsExecutableFile(info: FileInfo)
  {
    info.stat.IsFile() && OwnerExecutable(info.stat.mode)
  }

  /** `executableFilesSuggestions(tokenValue, directory)`. */
  function ExecutableFilesSuggestions(tokenValue: string, directory: string, host: Host): (r: Result<SuggestionList>)
    ensures r == FilesSuggestions(IsExecutableFile, tokenValue, directory, host)
    ensures !EndsWith(tokenValue, "..") && r.Ok? ==>
              var tokenDirectory := host.directoryName(tokenValue);
              var directoryPath := host.resolveDirectory(directory, tokenDirectory);
              && directoryPath in host.listing
              && var kept := Selected(host.listing[directoryPath], SliceFrom(tokenValue, |tokenDirectory|), IsExecutableFile);
                 && |r.value| == |kept|
                 && forall i :: 0 <= i < |kept| ==>
                      && (kept[i].stat.IsDirectory() || IsExecutableFile(kept[i]))
                      && r.value[i] == EntrySuggestion(kept[i], tokenDirectory, directoryPath, host)
  {
    FilesSuggestions(IsExecutableFile, tokenValue, directory, host)
  }

  /** `anyFilesSuggestions(tokenValue, directory)`. */
  function AnyFilesSuggestions(tokenValue: string, directory: string, host: Host): (r: Result<SuggestionList>)
    ensures r == FilesSuggestions(_ => true, tokenValue, directory, host)
    ensures !EndsWith(tokenValue, "..") && r.Ok? ==>
              var tokenDirectory := host.directoryName(tokenValue);
              var directoryPath := host.resolveDirectory(directory, tokenDirectory);
              var basePath := SliceFrom(tokenValue, |tokenDirectory|);
              && directoryPath in host.listing
              && var kept := Selected(host.listing[directoryPath], basePath, _ => true);
                 && (forall info :: info in kept <==> info in host.listing[directoryPath] && Visible(info, basePath))
                 && |r.value| == |kept|
                 && forall i :: 0 <= i < |kept| ==>
                      r.value[i] == EntrySuggestion(kept[i], tokenDirectory, directoryPath, host)
  {
    FilesSuggestions(_ => true, tokenValue, directory, host)
  }

  /** `anyFilesSuggestionsProvider`. */
  function AnyFilesSuggestionsProvider(): (r: Provider)
    ensures forall context :: r(context) == WithoutBound(context, AnyFilesSuggestions(context.argument, context.pwd, context.host))
    ensures forall context :: r(context).Ok? <==> AnyFilesSuggestions(context.argument, context.pwd, context.host).Ok?
    ensures forall context, s :: r(context).Ok? && s in r(context).value ==>
              && s in AnyFilesSuggestions(context.argument, context.pwd, context.host).value
              && !HasArgument(context, s.Value())
  {
    Unique(FilesSuggestionsProviderIn(_ => true, None))
  }

  /** `directoriesSuggestionsProvider`. */
  function DirectoriesSuggestionsProvider(): (r: Provider)
    ensures forall context :: r(context).Ok? <==>
              || EndsWith(context.argument, "..")
              || context.host.resolveDirectory(context.pwd, context.host.directoryName(context.argument)) in context.host.listing
  {
    FilesSuggestionsProviderIn((info: FileInfo) => info.stat.IsDirectory(), None)
  }

  /** Outside the parent-folder branch, the directories provider suggests directories only. */
  lemma {:induction false} DirectoriesOnly(context: Context)
    requires !EndsWith(context.argument, "..")
    requires DirectoriesSuggestionsProvider()(context).Ok?
    ensures forall s :: s in DirectoriesSuggestionsProvider()(context).value ==> s.EffectiveStyle() == DirectoryStyle
  {
    var host := context.host;
    var filter := (info: FileInfo) => info.stat.IsDirectory();
    var r := FilesSuggestions(filter, context.argument, context.pwd, host);
    var tokenDirectory := host.directoryName(context.argument);
    var directoryPath := host.resolveDirectory(context.pwd, tokenDirectory);
    var kept := Selected(host.listing[directoryPath], SliceFrom(context.argument, |tokenDirectory|), filter);
    forall s | s in r.value ensures s.EffectiveStyle() == DirectoryStyle {
      var i :| 0 <= i < |r.value| && r.value[i] == s;
      assert kept[i] in kept;
    }
  }

  /* ---- environment variables and flags ---- */

  /** `environmentVariableSuggestions`: after a "$", one suggestion per variable, in environment order. */
  function EnvironmentVariableSuggestions(context: Context): (r: Result<SuggestionList>)
    ensures r.Ok?
    ensures !StartsWith(context.argument, "$") ==> r.value == []
    ensures StartsWith(context.argument, "$") ==>
              && |r.value| == |context.environment|
              && forall i :: 0 <= i < |r.value| ==>
                   && r.value[i].Value() == "$" + context.environment[i].0
                   && r.value[i].Description() == context.environment[i].1
                   && r.value[i].EffectiveStyle() == EnvironmentVariableStyle
  {
    if StartsWith(context.argument, "$") then
      var env := context.environment;
      Ok(seq(|env|, i requires 0 <= i < |env| =>
        Attributes(Some("$" + env[i].0), None, None, Some(env[i].1), Some(EnvironmentVariableStyle), None, None)))
    else Ok([])
  }

  /** `name[0]` as a template literal renders it: the first character, or "undefined" for an empty name. */
  function FirstCharacter(name: string): (r: string)
    ensures name != [] ==> r == [name[0]]
    ensures name == [] ==> r == "undefined"
  {
    if name == [] then "undefined" else [name[0]]
  }

  /**
   * `longAndShortFlag(name, shortName)` applied to a context: nothing when
   * either spelling is already an argument; otherwise one option suggestion
   * that completes to the short spelling exactly when the token is that
   * spelling, and displays both.
   */
  function LongAndShortFlag(name: string, shortName: Option<string>, context: Context): (r: Result<SuggestionList>)
    ensures r.Ok?
    ensures var longValue := "--" + name;
            var shortValue := "-" + shortName.GetOr(FirstCharacter(name));
            && (HasArgument(context, longValue) || HasArgument(context, shortValue) ==> r.value == [])
            && (!HasArgument(context, longValue) && !HasArgument(context, shortValue) ==>
                  && |r.value| == 1
                  && r.value[0].Value() == (if context.argument == shortValue then shortValue else longValue)
                  && r.value[0].DisplayValue() == shortValue + " " + longValue
                  && r.value[0].EffectiveStyle() == OptionStyle)
  {
    var longValue := "--" + name;
    var shortValue := "-" + shortName.GetOr(FirstCharacter(name));
    if HasArgument(context, longValue) || HasArgument(context, shortValue) then Ok([])
    else
      var value := if context.argument == shortValue then shortValue else longValue;
      Ok([Attributes(Some(value), Some(shortValue + " " + longValue), None, None, Some(OptionStyle), None, None)])
  }

  function LongAndShortFlagProvider(name: string, shortName: Option<string>): Provider
  {
    (context: Context) => LongAndShortFlag(name, shortName, context)
  }

  function OptionSuggestion(value: string): Attributes
  {
    Attributes(Some(value), None, None, None, Some(OptionStyle), None, None)
  }

  /** The provider that always offers the one option `value`. */
  function SingleOption(value: string): Provider
  {
    (context: Context) => Ok([OptionSuggestion(value)])
  }

  /** A single option behind `unique`: offered exactly when it is not an argument yet. */
  lemma SingleOptionUnique(value: string, context: Context)
    ensures Unique(SingleOption(value))(context) ==
              Ok(if HasArgument(context, value) then [] else [OptionSuggestion(value)])
  {
    var option := OptionSuggestion(value);
    assert SingleOption(value)(context) == Ok([option]);
    assert NotBound(context)(option) == !HasArgument(context, value);
    assert Filter([option], NotBound(context)) == if NotBound(context)(option) then [option] else [];
  }

  /** `shortFlag(char)`: the option "-" + char, unless it is already an argument. */
  function ShortFlag(flag: string): (r: Provider)
    ensures forall context :: r(context) ==
              Ok(if HasArgument(context, "-" + flag) then [] else [OptionSuggestion("-" + flag)])
  {
    assert forall context :: Unique(SingleOption("-" + flag))(context) ==
             Ok(if HasArgument(context, "-" + flag) then [] else [OptionSuggestion("-" + flag)]) by {
      forall context { SingleOptionUnique("-" + flag, context); }
    }
    Unique(SingleOption("-" + flag))
  }

  /** `longFlag(name)`: the option "--" + name, unless it is already an argument. */
  function LongFlag(name: string): (r: Provider)
    ensures forall context :: r(context) ==
              Ok(if HasArgument(context, "--" + name) then [] else [OptionSuggestion("--" + name)])
  {
    assert forall context :: Unique(SingleOption("--" + name))(context) ==
             Ok(if HasArgument(context, "--" + name) then [] else [OptionSuggestion("--" + name)]) by {
      forall context { SingleOptionUnique("--" + name, context); }
    }
    Unique(SingleOption("--" + name))
  }
}
