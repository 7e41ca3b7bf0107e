# Black Screen autocompletion core, modelled in Dafny

This project models the suggestion engine of the Black Screen terminal and
the parts of its user interface that bookkeep sessions, terminals and prompt
keys. It proves properties of the model.

- **Suggestions and providers** (`suggestion.dfy`, `providers.dfy`).
  - The `Suggestion` value: an all-optional attribute record with getter defaults and `with*` builders.
  - Providers are functions from a request context to a list of suggestions or a failure.
  - The combinators: `unique`, which drops arguments already bound; `combine`, which concatenates in order; `contextIndependent`, which memoises; `mapSuggestions`.
  - The shared providers: files and parent directories, executables, directories, environment variables, and long/short flags.
- **Man-page parser** (`man_pages.dfy`).
  - Backspace overstrike removal, trimming and line splitting.
  - The section state machine and paragraph splitting.
  - The two flag patterns and `combineManPageLines`.
  - The cached `manPageOptions` provider.
- **Legacy file provider** (`file_provider.dfy`).
  - Lists the directory the last argument points into and describes each entry.
  - Ranks the entries by an external fuzzy score: stable sort, reversed, ten best.
- **Plugin registry** (`plugin_manager.dfy`): append-only plugin lists and a command-to-provider table with a default provider. Registration waits on a command-existence check.
- **Tab** (`tab.dfy`): sessions, the active index, and the layout map whose entry `r` counts the columns in row `r`.
- **Application** (`application.dfy`): the terminal list, its active index, resizing, and the quit message.
- **Prompt view** (`prompt.dfy`): the key table, command keys, moving the highlighted suggestion, deleting a word, blank detection, accepting a suggestion, and when the list is shown.

Shared helpers:

- `seqs.dfy`: filter, split, join, flatten, `indexOf`, pull, take, reverse, and lodash's stable `sortBy`.
- `text.dfy`: JavaScript's whitespace class and `trim`, the `\w` class, and octal printing.
- `wrappers.dfy`: `Option` and `Result`.
- `interfaces.dfy`: `FileInfo` and its `stat`.

Things outside the model arrive as values or as uninterpreted function parameters:

- directory listings, `man`'s output and error text;
- the path helpers and the fuzzy score;
- the prompt's tokenizer.

A promise that rejects, or a JavaScript `TypeError` on `undefined`, becomes an `Err` result with a fixed message.

Behaviours of the code that a reader might not expect, all kept in the model:

- `contextIndependent` memoises the promise itself, so a rejected first call is served from the cache forever, and the provider is never run again.
- `combineManPageLines` ends every unhyphenated line with a space. A one-line flag description therefore ends in a trailing space ("Verbose output. ").
- The parent-directory list counts the root as a level. A token ending in `..` inside `/a/b/c` yields three suggestions: `../`, `../../` and `../../../`, described `/a/b`, `/a` and `/`.

## Model

| member | source | states |
|---|---|---|
| Suggestions.ExtensionIcon | src/plugins/autocompletion_providers/Common.ts:279-292 | archive icon exactly for .zip/.gzip, code icon exactly for .js/.ts/.rb/.json, generic otherwise |
| Suggestions.FileStyleFor | src/plugins/autocompletion_providers/Common.ts:138-157 | an image previews its full path; any other file gets its extension's icon |
| Suggestions.Attributes.Value | src/plugins/autocompletion_providers/Common.ts:30-32 | the value, or "" when absent |
| Suggestions.Attributes.Description | src/plugins/autocompletion_providers/Common.ts:38-40 | the description, or "" when absent |
| Suggestions.Attributes.EffectiveStyle | src/plugins/autocompletion_providers/Common.ts:42-44 | the style, or the empty style when absent |
| Suggestions.Attributes.DisplayValue | src/plugins/autocompletion_providers/Common.ts:46-48 | a present, non-empty display value wins; otherwise the value |
| Suggestions.Attributes.Synopsis | src/plugins/autocompletion_providers/Common.ts:34-36 | a present, non-empty synopsis wins; otherwise the truncated description |
| Suggestions.Attributes.ValueForPrompt | src/plugins/autocompletion_providers/Common.ts:50-54 | with escaping, the text before the optional trailing space is exactly the escaped value; without, the value is a prefix; the length grows by one per escaped whitespace plus one for the space; the last character is a space when space is set; unchanged when neither flag is set |
| Suggestions.DefaultsWhenAbsent | src/plugins/autocompletion_providers/Common.ts:26-62 | a suggestion built with no attributes has empty value, display value and description, no style, no space, no escaping, and the empty prompt text |
| Suggestions.Suggestion.WithValue | src/plugins/autocompletion_providers/Common.ts:64-67 | only `value` changes and the same object is returned |
| Suggestions.Suggestion.WithDisplayValue | src/plugins/autocompletion_providers/Common.ts:69-72 | only `displayValue` changes; an empty one still falls back to the value |
| Suggestions.Suggestion.WithSynopsis | src/plugins/autocompletion_providers/Common.ts:74-77 | only `synopsis` changes and the same object is returned |
| Suggestions.Suggestion.WithDescription | src/plugins/autocompletion_providers/Common.ts:79-82 | only `description` changes and the same object is returned |
| Suggestions.Suggestion.WithStyle | src/plugins/autocompletion_providers/Common.ts:84-87 | only `style` changes and the same object is returned |
| Suggestions.Suggestion.WithSpace | src/plugins/autocompletion_providers/Common.ts:89-92 | only `space` changes, and the prompt text now ends in a space |
| Providers.Mk | src/plugins/autocompletion_providers/Common.ts:250-252 | the wrapped provider answers every context as the original does |
| Providers.EmptyProvider | src/plugins/autocompletion_providers/Common.ts:254 | every context gets an empty list |
| Providers.MapResult | src/plugins/autocompletion_providers/Common.ts:310 | failures pass through; otherwise the same length, each entry mapped in place |
| Providers.MapSuggestions | src/plugins/autocompletion_providers/Common.ts:310 | for every context: fails iff the provider fails, with its error; otherwise the same length, each suggestion the mapper applied to the provider's suggestion at the same place |
| Providers.WithoutBound | src/plugins/autocompletion_providers/Common.ts:185-188 | failures pass through; a suggestion survives iff it was offered and its value is not already an argument; order is kept |
| Providers.Unique | src/plugins/autocompletion_providers/Common.ts:185-188 | for every context: succeeds iff the provider does, passes a failure through unchanged, and never lengthens the list |
| Providers.UniqueIdempotent | src/plugins/autocompletion_providers/Common.ts:185-188 | `unique(unique(p))` answers as `unique(p)` |
| Providers.UniqueDropsExactlyBound | src/plugins/autocompletion_providers/Common.ts:185-188 | membership in the result iff offered and not bound |
| Providers.Outcomes | src/plugins/autocompletion_providers/Common.ts:242-244 | one outcome per provider, in provider order |
| Providers.All | src/plugins/autocompletion_providers/Common.ts:243 | succeeds iff every outcome does; a failure is one of the outcomes' failures |
| Providers.AllIsFlatten | src/plugins/autocompletion_providers/Common.ts:243 | on success the result is the flattened lists; its length is the sum of their lengths |
| Providers.Combine | src/plugins/autocompletion_providers/Common.ts:242-244 | for every context: succeeds iff every provider does; a failure is the failure of one of the providers |
| Providers.CombineTwo | src/plugins/autocompletion_providers/Common.ts:242-244 | two providers combine into the first list followed by the second, and fail iff either fails |
| Providers.CombineAppend | src/plugins/autocompletion_providers/Common.ts:242-244 | combining `ps + qs` concatenates the combinations of `ps` and of `qs` |
| Providers.AllAppend | src/plugins/autocompletion_providers/Common.ts:243 | gathering concatenated outcomes concatenates the gathered lists |
| Providers.ContextIndependent.constructor | src/plugins/autocompletion_providers/Common.ts:246-248 | starts with nothing cached and no invocation |
| Providers.ContextIndependent.Call | src/plugins/autocompletion_providers/Common.ts:246-248 | the first call runs the provider and caches its outcome, failures included; later calls return the cache without running it; the provider runs at most once |
| Providers.StripTrailingSlash | src/plugins/autocompletion_providers/Common.ts:195 | drops exactly one trailing "/" when present |
| Providers.ParentDirectories | src/plugins/autocompletion_providers/Common.ts:194-203 | one suggestion per level n from 1 to parts-1: value "../" repeated n times, description the first parts-n parts joined by "/" (or "/" when empty), directory style |
| Providers.SliceFrom | src/plugins/autocompletion_providers/Common.ts:206 | JavaScript `slice(start)`: the suffix, or "" past the end |
| Providers.Selected | src/plugins/autocompletion_providers/Common.ts:210-212 | an entry is kept iff listed, visible (dot files only for a dot base path) and a directory or accepted by the filter |
| Providers.EntrySuggestion | src/plugins/autocompletion_providers/Common.ts:213-219 | directories: joined path with "/", display name with "/", directory style; files: joined path, display name, the file style of its extension and full path |
| Providers.FilesSuggestions | src/plugins/autocompletion_providers/Common.ts:190-220 | a token ending in ".." gives the parent list; otherwise it fails iff the directory cannot be listed, else it gives one entry suggestion per selected entry in listing order |
| Providers.FilesSuggestionsProviderIn | src/plugins/autocompletion_providers/Common.ts:222-225 | lists relative to the given directory, or the working directory when none is given, for the typed argument |
| Providers.ExecutableFilesSuggestions | src/plugins/autocompletion_providers/Common.ts:227 | exactly the files suggestions with the owner-executable filter: the parent list for "..", a rejection iff the directory cannot be listed, else one suggestion per visible directory or owner-executable regular file, in listing order |
| Providers.AnyFilesSuggestions | src/plugins/autocompletion_providers/Common.ts:228 | exactly the files suggestions accepting every entry: the parent list for "..", a rejection iff the directory cannot be listed, else one suggestion per visible entry, in listing order |
| Providers.AnyFilesSuggestionsProvider | src/plugins/autocompletion_providers/Common.ts:229 | for every context, the file suggestions in the working directory with every already-bound value removed, in order; failures pass through |
| Providers.DirectoriesSuggestionsProvider | src/plugins/autocompletion_providers/Common.ts:230 | succeeds iff the token ends in ".." or the directory it names can be listed |
| Providers.DirectoriesOnly | src/plugins/autocompletion_providers/Common.ts:230 | the directories provider offers only directory-styled suggestions |
| Providers.EnvironmentVariableSuggestions | src/plugins/autocompletion_providers/Common.ts:232-240 | never fails; empty unless the argument starts with "$"; otherwise one "$NAME" suggestion per variable, described by its value |
| Providers.FirstCharacter | src/plugins/autocompletion_providers/Common.ts:294 | the first character, or "undefined" for an empty name |
| Providers.LongAndShortFlag | src/plugins/autocompletion_providers/Common.ts:294-305 | nothing once either spelling is bound; otherwise one option whose value is the short spelling iff that is what was typed, displayed as "-s --long" |
| Providers.SingleOptionUnique | src/plugins/autocompletion_providers/Common.ts:307-308 | one option behind `unique` is offered exactly when its value is not yet an argument |
| Providers.ShortFlag | src/plugins/autocompletion_providers/Common.ts:307 | for every context, "-c" is offered exactly when it is not yet an argument |
| Providers.LongFlag | src/plugins/autocompletion_providers/Common.ts:308 | for every context, "--name" is offered exactly when it is not yet an argument |
| ManPages.StripOverstrike | src/utils/ManPages.ts:33-34 | never lengthens the text; text without backspaces is unchanged |
| ManPages.StripOverstruck | src/utils/ManPages.ts:33-34 | removing "mark, backspace" pairs recovers the overstruck text |
| ManPages.BoldAndUnderline | src/utils/ManPages.ts:33-34 | bold (char, backspace, char) and underline (_, backspace, char) both strip back to the plain text |
| ManPages.ManLines | src/utils/ManPages.ts:36-37 | at least one line, none containing a newline |
| ManPages.ManLinesRejoin | src/utils/ManPages.ts:36-37 | the lines joined by newlines are the trimmed, stripped page |
| ManPages.FirstLineIsHeader | src/utils/ManPages.ts:37-51 | the first line is a header iff the page is not blank |
| ManPages.SplitSections | src/utils/ManPages.ts:39-51 | the loop computes the left fold of the section state machine |
| ManPages.SectionsErrorPersists | src/utils/ManPages.ts:43-44 | once a continuation line finds no section, the whole parse fails the same way |
| ManPages.SectionsFailure | src/utils/ManPages.ts:40-51 | the parse fails iff the first line is a continuation; otherwise the current section is in the table |
| ManPages.SectionsContents | src/utils/ManPages.ts:40-51 | the current section is the last header; the table's keys are exactly the headers; each header holds exactly the continuation lines whose most recent header it is, in page order |
| ManPages.LastHeader | src/utils/ManPages.ts:46 | "" or one of the headers |
| ManPages.SplitParagraphs | src/utils/ManPages.ts:55-66 | the reduce yields the description split at empty lines |
| ManPages.ParagraphsPartitionLines | src/utils/ManPages.ts:55-69 | the kept paragraphs are non-empty, contain no empty line, and together are exactly the non-empty lines in order |
| ManPages.LeadingSpaces | src/utils/ManPages.ts:74-75 | the length of the run of leading spaces |
| ManPages.MatchWithArgumentSound | src/utils/ManPages.ts:74 | a match means the line is spaces, "-", a word character, one space and a word |
| ManPages.MatchWithArgumentComplete | src/utils/ManPages.ts:74 | every such line matches, capturing the flag and the argument |
| ManPages.MatchWithoutArgumentSound | src/utils/ManPages.ts:75 | a match means the line is spaces, "-", a word character, spaces and a trailer with no line terminator and no leading space |
| ManPages.MatchWithoutArgumentComplete | src/utils/ManPages.ts:75 | every such line matches, capturing the flag and the trailer |
| ManPages.WithArgumentAlsoWithout | src/utils/ManPages.ts:74-76 | a line matching the first pattern matches the second with the same captures |
| ManPages.TrimAll | src/utils/ManPages.ts:5 | each line trimmed, in place |
| ManPages.UnwrapSnoc | src/utils/ManPages.ts:6-14 | one more line appends its piece: the line minus its hyphen, or the line and a space |
| ManPages.CombineLinesAppend | src/utils/ManPages.ts:4-15 | combining concatenated lines concatenates the combinations |
| ManPages.CombineManPageLines | src/utils/ManPages.ts:4-15 | no lines give ""; a last line without a trailing hyphen leaves a trailing space |
| ManPages.CombinePlainLines | src/utils/ManPages.ts:4-15 | without hyphens the result is the trimmed lines joined by spaces, plus a space |
| ManPages.HyphenatedLinesJoin | src/utils/ManPages.ts:8-9 | a line ending in "-" is glued to the next without the hyphen |
| ManPages.ParagraphOptionSpec | src/utils/ManPages.ts:73-97 | a paragraph yields an option iff its first line matches the second pattern. Both give value "-f" and option style. The first pattern adds display "-f arg", description from the rest, and the space flag. Otherwise the description starts with the trailer. |
| ManPages.OptionsOf | src/utils/ManPages.ts:71-100 | at most one option per paragraph |
| ManPages.ExtractOptions | src/utils/ManPages.ts:71-100 | the loop computes the options of the paragraphs in order |
| ManPages.OptionsOfAppend | src/utils/ManPages.ts:73-98 | options of concatenated paragraphs concatenate |
| ManPages.OptionsOfSnoc | src/utils/ManPages.ts:73-98 | one more paragraph appends its own options |
| ManPages.OptionsAreFlags | src/utils/ManPages.ts:81-96 | every option is "-" and one word character, in option style |
| ManPages.ManPageToOptions | src/utils/ManPages.ts:27-101 | the imperative pipeline computes the whole-page specification |
| ManPages.ManPageOptionsOf | src/utils/ManPages.ts:27-101 | any error output rejects with "Error in retrieving man page: " and the command; every option of a success is "-" and one word character, in option style |
| ManPages.MissingDescriptionRejects | src/utils/ManPages.ts:43-55 | a page without a DESCRIPTION header, or a blank page, fails |
| ManPages.ResolvedOptionsAreFlags | src/utils/ManPages.ts:27-101 | success implies empty error output and a DESCRIPTION section, at most one option per flag paragraph, and every option a short flag |
| ManPages.ManPageOptions | src/utils/ManPages.ts:103 | the first request parses and caches; later ones reuse the cache; the answer drops bound flags |
| FileProvider.FileFilter | src/providers/File.ts:62-69 | "cd" keeps exactly the directories; any other command keeps everything |
| FileProvider.SearchDirectory | src/providers/File.ts:15-23 | an absolute argument's directory as is, a relative one's joined to the working directory |
| FileProvider.ModeDescription | src/providers/File.ts:28 | "Mode: 0" and the octal digits of the low nine mode bits, which read back as mode mod 512 |
| FileProvider.EntrySuggestion | src/providers/File.ts:27-50 | score 0, empty synopsis, kind "file"; partial iff directory; a directory's normalised name and mode description; a file's name, mode and size description; a prefix iff the search directory is not the working directory |
| FileProvider.Entries | src/providers/File.ts:27 | one suggestion per entry the command's filter admits, in listing order |
| FileProvider.Rescored | src/providers/File.ts:53 | same entries in the same order, each score replaced by score(value, base name) |
| FileProvider.AssignScores | src/providers/File.ts:53 | the array afterwards holds exactly the rescored entries |
| FileProvider.GetSuggestions | src/providers/File.ts:10-60 | fewer than two expanded tokens give nothing; otherwise the array pipeline resolves to what FileSuggestionsOf says: a rejection when the search directory cannot be listed, else the ranking or the prefix |
| FileProvider.Ranked | src/providers/File.ts:54 | min(10, number of entries) suggestions |
| FileProvider.RankedDescending | src/providers/File.ts:54 | scores never increase along the ranking |
| FileProvider.RankedFromEntries | src/providers/File.ts:54 | the ranking is a sub-multiset of the scored entries |
| FileProvider.RankedTiesReversed | src/providers/File.ts:54 | the ranking is a prefix of the reversed sort, in which each score's entries are exactly the listing's, in reverse listing order |
| FileProvider.RankedAreBest | src/providers/File.ts:54-56 | an entry left out of the ranking means ten were kept, and it scores no higher than the last one kept |
| FileProvider.RankedRescored | src/providers/File.ts:53-56 | with a base name the result has min(10, n) entries in non-increasing score order, each scored by the fuzzy score, drawn without repetition from the rescored entries, and no entry left out scores higher than the last one kept |
| FileProvider.FileSuggestionsOf | src/providers/File.ts:10-60 | fewer than two expanded tokens give nothing; otherwise it rejects iff the search directory cannot be listed; at most ten results with a base name, at most `limit` without |
| FileProvider.FileSuggestionsShape | src/providers/File.ts:52-57 | once the directory is listed, with a base name: min(10, n) results in non-increasing order, each scored by the fuzzy score, a sub-multiset of the rescored entries, and every entry left out scores no higher than the last one kept; without one: the first `limit` entries in listing order, each scored 1 |
| Plugins.DefaultProvider | src/PluginManager.ts:7 | for every context: the environment-variable suggestions followed by the file suggestions, failing iff the file provider fails |
| Plugins.ProviderFor | src/PluginManager.ts:39-41 | the registered provider, else the default |
| Plugins.Registered | src/PluginManager.ts:31-37 | a found command maps to its provider; a missing one leaves the table as it was; every other command keeps its entry or absence |
| Plugins.MissingCommandIgnored | src/PluginManager.ts:33-35 | a registration whose command does not exist changes no lookup |
| Plugins.RegisteredLookup | src/PluginManager.ts:33-41 | after a successful registration its command looks up its provider and every other command what it did before |
| Plugins.LaterRegistrationWins | src/PluginManager.ts:35 | of two successful registrations for the same command the later one wins |
| Plugins.RegistrationsCommute | src/PluginManager.ts:31-37 | registrations for different commands commute |
| Plugins.PluginManager.constructor | src/PluginManager.ts:11-13 | all lists and the table start empty |
| Plugins.PluginManager.RegisterPrettyfier | src/PluginManager.ts:15-21 | appends at the end and touches nothing else |
| Plugins.PluginManager.RegisterEnvironmentObserver | src/PluginManager.ts:23-29 | appends at the end and touches nothing else |
| Plugins.PluginManager.RegisterAutocompletionProvider | src/PluginManager.ts:31-33 | queues the registration under a new ticket; the table is untouched |
| Plugins.PluginManager.Resolve | src/PluginManager.ts:33-36 | the table gains or overwrites the entry only when the command exists; nothing else changes |
| Plugins.PluginManager.AutocompletionProviderFor | src/PluginManager.ts:39-41 | the lookup on the current table, the default when unregistered |
| Tabs.UpdatedViewMap | src/views/TabComponent.tsx:158-189 | horizontal: the active row gains a column, position one to the right. Vertical: a one-column row goes below the active row when a truthy row follows, else at the end; position at the start of the next row. Any other type: layout unchanged, origin. |
| Tabs.SplitKeepsLayout | src/views/TabComponent.tsx:158-189 | a split keeps every row non-empty, keeps the active position inside the layout, and adds exactly one cell for a recognised split type |
| Tabs.Max | src/views/TabComponent.tsx:134 | an entry that bounds every entry |
| Tabs.Tab.constructor | src/views/TabComponent.tsx:49-74 | one fresh session at the origin, layout [1], origin active, index 0 |
| Tabs.Tab.AddSession | src/views/TabComponent.tsx:67-74 | appends one fresh session at the origin and activates it; the layout is untouched |
| Tabs.Tab.UpdateViewMap | src/views/TabComponent.tsx:158-189 | updates the layout in place as the split function says |
| Tabs.Tab.AddSessionToPosition | src/views/TabComponent.tsx:79-84 | splits the layout, activates the new position, appends one fresh session there and activates it |
| Tabs.Tab.CloseSession | src/views/TabComponent.tsx:86-99 | removes every occurrence; an index now past the end moves to the last session; the layout is untouched |
| Tabs.Tab.ActiveSession | src/views/TabComponent.tsx:101-103 | the session at the index, when there is one |
| Tabs.Tab.ActivateSession | src/views/TabComponent.tsx:105-107 | the index of the session's first occurrence, or -1 |
| Tabs.Tab.ActivatePreviousSession | src/views/TabComponent.tsx:109-116 | false and unchanged at index 0; otherwise true and one step back (-1 stays -1) |
| Tabs.Tab.ActivateNextSession | src/views/TabComponent.tsx:118-125 | false and unchanged at the last index; otherwise true and one step forward |
| Tabs.Tab.SessionsCountHorizontal | src/views/TabComponent.tsx:133-135 | the widest row, at least 1 |
| Tabs.Tab.SessionsCountVertical | src/views/TabComponent.tsx:137-139 | the number of rows, at least 1 |
| Applications.ContentDimensions | src/Application.ts:61-66 | the largest column and row counts whose cells fit in the content |
| Applications.Application.constructor | src/Application.ts:11-16 | exactly one fresh terminal, sized to the window; no active index yet |
| Applications.Application.AddTerminal | src/Application.ts:26-31 | appends one fresh terminal sized to the content and returns it |
| Applications.Application.RemoveTerminal | src/Application.ts:33-41 | removes every occurrence keeping the others; quit is sent iff none is left; the active index is untouched |
| Applications.Application.ActivateTerminal | src/Application.ts:43-45 | the index of the terminal's first occurrence, or -1 |
| Applications.Application.ActiveTerminal | src/Application.ts:22-24 | the terminal at the active index, when the index names one |
| Applications.Application.SetContentSize | src/Application.ts:47-51 | every terminal gets the new content's dimensions; the list is untouched |
| Applications.AddedTerminalIsLast | src/Application.ts:26-31 | activating a just-added terminal selects the last index |
| Applications.RemoveTerminalIdempotent | src/Application.ts:33-34 | removing the same terminal twice is removing it once |
| Prompts.Matches | src/views/4_PromptComponent.ts:15-22 | a match needs key code 38, 40, 13, 9, 80, 78, 87 or 67; delete-word, interrupt and the Ctrl+P/Ctrl+N spellings need control held |
| Prompts.BoundKey | src/views/4_PromptComponent.ts:15-22 | at most one key of the table matches any event, and the answer is that key |
| Prompts.DefinedKeyDependsOnCtrlAndCode | src/views/4_PromptComponent.ts:47-48 | events agreeing on control and key code are bound alike, so the memoisation key is sound |
| Prompts.IsDefinedKey | src/views/4_PromptComponent.ts:47 | an event is defined iff it is bound to a key |
| Prompts.IsCommandKey | src/views/4_PromptComponent.ts:43-45 | true iff the key code is 16, 17 or 18 or control, alt or meta is held; delete-word and interrupt are therefore command keys and never record a latest key code |
| Prompts.IsEmpty | src/views/4_PromptComponent.ts:263-265 | blank iff every character is whitespace |
| Prompts.EmptyIffTrimmedEmpty | src/views/4_PromptComponent.ts:263-265 | blank iff the text trims to nothing |
| Prompts.DeleteWordText | src/views/4_PromptComponent.ts:252-261 | empty or ending in a space; empty for at most one token |
| Prompts.DeleteWordKeepsTokens | src/views/4_PromptComponent.ts:252-261 | for space-free tokens, splitting a non-empty result (less its space) gives back all tokens but the last |
| Prompts.DeleteWordAfterAppend | src/views/4_PromptComponent.ts:254-258 | deleting the word after tokens gives those tokens joined, plus a space |
| Prompts.Navigated | src/views/4_PromptComponent.ts:275-283 | up steps back and stops at 0; down steps forward and stops at the last; an in-range index stays in range |
| Prompts.PromptView.constructor | src/views/4_PromptComponent.ts:121-127 | no suggestions, highlight 0, no latest key, caret 0 |
| Prompts.PromptView.RecordKey | src/views/4_PromptComponent.ts:106-107 | a key that is not a command key records its code; nothing else changes |
| Prompts.PromptView.ReplaceText | src/views/4_PromptComponent.ts:243-250 | the buffer is the text and the caret its length |
| Prompts.PromptView.DeleteWord | src/views/4_PromptComponent.ts:252-261 | the buffer becomes the delete-word text, ending in a space or empty; caret at its end |
| Prompts.PromptView.Execute | src/views/4_PromptComponent.ts:228-233 | the prompt executes exactly when the text is not blank |
| Prompts.PromptView.NavigateAutocomplete | src/views/4_PromptComponent.ts:275-283 | the highlight moves as the navigation function says and stays in range |
| Prompts.PromptView.SelectAutocomplete | src/views/4_PromptComponent.ts:285-298 | replace-all suggestions replace the text. Others replace the current lexeme and add a space unless partial. The caret ends at the end of the text. |
| Prompts.PromptView.ReceiveSuggestions | src/views/4_PromptComponent.ts:300-302 | new suggestions arrive with the first highlighted |
| Prompts.PromptView.ShowAutocomplete | src/views/4_PromptComponent.ts:305-311 | shown iff the prompt has attention, is mounted, has suggestions and a non-blank text, has not started, and the latest key is neither 13 nor 27 |
| Seqs.Split | src/utils/ManPages.ts:37 | at least one piece |
| Seqs.JoinSplit | src/utils/ManPages.ts:37 | joining the pieces with the separator restores the input |
| Seqs.SplitJoin | src/utils/ManPages.ts:37 | splitting separator-free pieces joined by the separator gives them back |
| Seqs.IndexOf | src/Application.ts:44 | -1 iff absent; otherwise an index holding the element with none before it |
| Seqs.RemoveAll | src/Application.ts:34 | the element is gone and every other element keeps its count |
| Seqs.RemoveAllIsFilter | src/Application.ts:34 | pulling is filtering out the element, so the others keep their order |
| Seqs.SortBy | src/providers/File.ts:54 | a permutation of the input |
| Seqs.SortByIsSorted | src/providers/File.ts:54 | ascending by key |
| Seqs.SortByIsStable | src/providers/File.ts:54 | for each key, its elements keep their input order |
| Seqs.Take | src/providers/File.ts:54-56 | the first min(n, length) elements |
| Seqs.Reverse | src/providers/File.ts:54 | element i is element length-1-i of the input |
| Text.TrimSpec | src/utils/ManPages.ts:5 | trim is a slice without whitespace at either end, empty iff the text is all whitespace |
| Text.TrimIdempotent | src/utils/ManPages.ts:5 | trimming twice is trimming once |
| Text.RemoveWhitespace | src/views/4_PromptComponent.ts:264 | no whitespace is left, and the result is empty iff the text was all whitespace |
| Text.EscapeWhitespace | src/plugins/autocompletion_providers/Common.ts:51 | one extra character per whitespace character; each whitespace left is a space preceded by a backslash |
| Text.EscapeWhitespaceChar | src/plugins/autocompletion_providers/Common.ts:51 | a whitespace character becomes a backslash and a space; any other character stays |
| Text.EscapeWhitespaceAppend | src/plugins/autocompletion_providers/Common.ts:51 | escaping distributes over concatenation, so every character is escaped on its own in place |
| Text.OctalRoundTrip | src/providers/File.ts:28 | the octal digits read back as the number |

## Left out

- Running `man`, listing directories, `commandExists`, `loadAllPlugins`' directory walk and `require`, and `IPC.send`. Their results are parameters; the quit message is a counter.
- `Promise.all` concurrency and the timing of asynchronous registration. `combine` is modelled sequentially; registration is an explicit `Resolve` step.
- The path helpers (`directoryName`, `joinPath`, `resolveDirectory`, `isImage`, `extname`, `baseName`, `dirName`, `normalizeDir`) and `humanFileSize`. They are uninterpreted function parameters.
- fuzzaldrin's `score` returns a float. It is an integer-valued parameter here, so ties are exact.
- lodash's `truncate` behind `synopsis` is a parameter.
- `src/Utils.ts`, `src/Prompt.ts`, `src/Enums.ts` and `src/utils/Common.ts` are not part of this model. The prompt's tokenizer, `replaceCurrentLexeme`, `History` and the status values other than NotStarted and InProgress are parameters or opaque.
- Window and pixel arithmetic in `Tab.contentDimensions` (src/views/TabComponent.tsx:141-153). A session keeps only its position, not its dimensions.
- Applications.ContentDimensions: sizes are whole numbers and the character size is positive. Fractional pixel sizes and division by a zero character size are not modelled.
- React rendering, the DOM caret, Rx streams, jQuery, scrolling and hover state of the prompt and tab components.
- Session and job listener teardown in `closeSession`.
- `styles` entries and `gitStatusCodeColor` are opaque tags.
- `manSections` is a plain JavaScript object. Header lines such as "constructor" that name an inherited property are treated like any other header.
- JavaScript strings are UTF-16 code units; the model works on Dafny characters.
- `PluginManager`'s static fields are the fields of one registry object. A registry key naming an inherited object property is not modelled.
- `_.memoize` on `isDefinedKey` is not modelled as a cache. Prompts.DefinedKeyDependsOnCtrlAndCode shows that the cache key loses nothing.
- Plugins.DefaultProvider: `src/PluginManager.ts` imports its providers from `src/plugins/autocompletion_utils/`, which is not part of this model. The model assumes they are the providers of `src/plugins/autocompletion_providers/Common.ts`.
- `Path.sep` is fixed as "/"; Windows separators are not modelled.
- Prompts.PromptView.SelectAutocomplete: `buffer.write(' ')` is modelled as appending at the end of the text, not as writing at the caret.
