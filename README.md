# Torah reader core, modelled in Dafny

This project models the core of *torah-v2*, a web reader for the five books of the Torah.
The reader shows one verse at a time: its Hebrew words, their translations, and the classical commentaries.
It also navigates the text by book, parasha (weekly reading), chapter and verse.
The data lives in a tree of small JSON files:

- metadata indexes: books, parashot, commentators, a lexicon and the Torah structure;
- one metadata file per book;
- one file per chapter;
- one file per verse, named `{parasha}-NNN-NNN.json`.

Offline Node scripts build and check that tree.

The model covers:

- **Resolver** (module `Resolver`): the pure decisions of the loader.
  - Which parasha owns a chapter, and for a chapter shared by two parashot, which one owns a verse.
  - The verse range of a parasha within a chapter.
  - The available verses of a chapter.
  - The niqqud-stripping lexicon lookup.
- **Loader** (class `DataLoader.ModularDataLoader`): the cache-first loader.
  - Its cache of books index, book metadata, chapters, verses, parashot, commentators and lexicon.
  - Persistence of the cache in local storage, with a version check.
  - The redirect of a verse request to the parasha that owns the verse.
  - The 24-hour staleness test.
- **Data hook** (class `DataHook.TorahDataHook`): the React hook that keeps the reader's state.
  - Current book, chapter, verse, parasha and errors.
  - Its progress log, and how each action changes the state.
- **Navigation** (class `Navigation.TorahNavigation`) and the **reader page** (class `Reader.ReaderPage`).
  - The choices they offer, and the state changes each click makes.
- **Commentary panel** (module `Commentary`).
  - Preview text, card keys, and author colours and names.
- **Paths** (module `Paths`): `getDataPath`.
- **Offline scripts**, each as a class over an in-memory file system (a map from path to JSON value).
  - `createAllBooksStructure.js` (`AllBooks`).
  - `generateFullStructure.js` (`FullStructure`).
  - `createDataStructure.js` (`DataStructure`).
  - `convertToVerseStructure.js` (`Converter`).
  - `validateData.js` (`Validator`).

Effects become explicit state:

- `fetch`, `localStorage` and the file system are maps passed in or held as fields.
- The clock is an integer parameter.
- Console output is left out, except where a script's report is its result.

`src/components/CommentaryNew.tsx` repeats lines 1-78 of `src/components/Commentary.tsx` unchanged, so the `Commentary` rows, which cite `Commentary.tsx`, cover both files.

Three facts of the loader that the model follows:

- The verse loader (`src/utils/modularDataLoader.ts` lines 222-228) throws on a failed fetch and has no chapter-file fallback.
- The cache holds a single `lastCacheUpdate` for all its entries (lines 19 and 28), and `loadCache` accepts only version `1.0.0` (lines 32 and 578).
- The chapter cache key is `{book}-{parasha or 'default'}-NNN` (line 88).

## Model

| member | source | states |
|---|---|---|
| Text.NatToString | src/utils/modularDataLoader.ts:88 | `n.toString()` is a non-empty run of decimal digits, with no leading zero from 10 up |
| Text.ParseNatToString | scripts/convertToVerseStructure.js:103 | `parseInt` reads `n.toString()` back as `n` |
| Text.NatToStringInjective | src/utils/modularDataLoader.ts:424 | different chapters never share a structure key `chapter.toString()` |
| Text.PadStart3 | src/utils/modularDataLoader.ts:88 | `padStart(3, '0')` gives length 3, or leaves a longer string's length |
| Text.PadStart3KeepsValue | src/utils/modularDataLoader.ts:88 | padding with zeros changes neither the digit form nor the value of a number |
| Text.ParsePad3 | scripts/convertToVerseStructure.js:101-103 | a `chapter-NNN.json` or `{parasha}-NNN-NNN.json` number reads back as the number written |
| Text.Pad3Injective | src/utils/modularDataLoader.ts:215 | distinct chapter or verse numbers give distinct padded names, so cache keys and file names never collide |
| Text.ToLowerAscii | src/utils/modularDataLoader.ts:423 | `toLowerCase()` keeps the length, lowers each capital and leaves every other character |
| Text.ReplaceFirstSpec | src/components/Commentary.tsx:40 | `replace(c, d)` with a string pattern changes only the first `c`, and nothing when there is none |
| Text.JoinLength | src/hooks/useModularTorahData.ts:210 | `join(sep)` is as long as its parts plus one separator between each two |
| Text.JoinSplit | src/hooks/useModularTorahData.ts:210 | joining the pieces of `split(c)` with `c` gives the string back |
| Text.SplitJoin | src/hooks/useModularTorahData.ts:210 | splitting parts joined by `c` gives the parts back when none holds `c` |
| Text.TrimStart | scripts/generateFullStructure.js:46 | drops exactly the leading white space `Number` ignores, leaving a suffix that starts with no such space |
| Text.TrimEnd | scripts/generateFullStructure.js:46 | drops exactly the trailing white space, leaving a prefix that ends with no such space |
| Text.StringToNumber | scripts/generateFullStructure.js:46 | a blank string reads as 0, a decimal digit string as its value, and any text that is neither a signed nor an unsigned digit string as NaN |
| Text.StringToNumberOfInt | scripts/generateFullStructure.js:46 | every integer's decimal form reads back as that integer |
| JsonValues.JsText | scripts/validateData.js:111-112 | a string interpolates as itself, a number as its decimal form, and a one-element array as its element |
| JsonValues.ToNumber | scripts/generateFullStructure.js:46 | `<=` reads a number as itself, a boolean as 1 or 0, `null` as 0, a string or an array from its text, and undefined or an object as NaN |
| JsonValues.ToNumberSingleton | scripts/generateFullStructure.js:116 | a one-element array compares as its element, unless that element is a boolean |
| JsonValues.NumberArrayText | scripts/validateData.js:111-112 | an array of numbers interpolates as their decimal forms separated by commas, which a split on commas gives back |
| Ranges.Consecutive | src/utils/modularDataLoader.ts:457-460 | the verses pushed from `start` to `end` are exactly the integers in between, ascending, and none when `start > end` |
| Ranges.CollectRange | src/utils/modularDataLoader.ts:457-460 | the push loop builds exactly `Consecutive(start, end)` |
| Paths.Base | src/utils/pathUtils.ts:10 | the base is `/torah-v2/` in production, else `BASE_URL`, or `/` when that is empty |
| Paths.CollapseSlashes | src/utils/pathUtils.ts:11 | the result keeps the first character, has no double slash, and keeps every non-slash character in order |
| Paths.CollapseKeepsSingleSlashes | src/utils/pathUtils.ts:11 | a string without a double slash is unchanged |
| Paths.CollapseIdempotent | src/utils/pathUtils.ts:11 | collapsing twice is collapsing once |
| Paths.CollapseDoubleSlash | src/utils/pathUtils.ts:11 | `//` anywhere collapses like `/`, so each run of slashes becomes one slash |
| Paths.CollapseKeepsPrefix | src/utils/pathUtils.ts:11 | a prefix free of double slashes comes through unchanged, up to its last character |
| Paths.DataPath | src/utils/pathUtils.ts:8-14 | `getDataPath` has no double slash and the same non-slash characters as `{base}data/{path}` |
| Paths.ProductionDataPath | src/utils/pathUtils.ts:9-11 | in production every data path starts with `/torah-v2/data/` |
| Paths.DefaultBaseDataPath | src/utils/pathUtils.ts:10-11 | outside production with an empty `BASE_URL`, a clean relative path is served as `/data/{path}` |
| Commentary.ShortText | src/components/Commentary.tsx:23 | a text of at most 150 characters is its own preview; a longer one gives its first 150 characters and `...` |
| Commentary.CardId | src/components/Commentary.tsx:22 | every card id starts with `commentary-` |
| Commentary.CardIdInjective | src/components/Commentary.tsx:22 | different positions get different ids |
| Commentary.MakeCards | src/components/Commentary.tsx:20-24 | one card per item, in order, keeping author, text and category, with the id of its position and the `ShortText` preview of its own text |
| Commentary.CardIdsDistinct | src/components/Commentary.tsx:20-24 | no two cards of a panel share a React key |
| Commentary.AuthorKey | src/components/Commentary.tsx:40 | the lookup key has the length of the author's name |
| Commentary.AuthorColour | src/components/Commentary.tsx:27-42 | a tabled author gets its colour, which is never gray; any other author gets gray |
| Commentary.AuthorDisplayName | src/components/Commentary.tsx:44-59 | a tabled author gets its Russian name; any other author keeps the name given |
| Commentary.TablesAgree | src/components/Commentary.tsx:28-55 | an author is gray exactly when the name table does not know it |
| Commentary.LookupIgnoresCase | src/components/Commentary.tsx:40-41 | lower-casing the name first changes neither the key, nor the colour, nor a known author's display name |
| Commentary.LowerConcat | src/components/Commentary.tsx:40 | lower-casing a name part by part gives the same as lower-casing it whole |
| Commentary.LowerKeepsSeparators | src/components/Commentary.tsx:40 | lower-casing neither creates nor removes a space or a hyphen |
| Commentary.AuthorKeyFirstSpace | src/components/Commentary.tsx:40 | for any name `a b` with no space or hyphen in `a`, the key is `a` lowered, `_`, then `b` lowered with only its first hyphen replaced: later spaces stay |
| Commentary.HyphenAfterPrefix | src/components/Commentary.tsx:40 | the first hyphen replaced in `p + q`, where `p` has none, is the first hyphen of `q` |
| Commentary.AuthorKeyHyphen | src/components/Commentary.tsx:40 | for any name `a-b` with no space and no hyphen in `a`, the key is `a` lowered, `_`, then `b` lowered |
| Commentary.TableKeysLookUp | src/components/Commentary.tsx:27-58 | every key of the colour table is its own lookup key, and finds its colour and its Russian name |
| Commentary.PanelOf | src/components/Commentary.tsx:61-78 | the placeholder is shown exactly when there are no commentaries; otherwise the count badge equals the number of cards |
| Resolver.Candidates | src/utils/modularDataLoader.ts:266-268 | the candidates are exactly the book's parashot covering the chapter |
| Resolver.CandidatesAppend | src/utils/modularDataLoader.ts:266-268 | the filter keeps list order: the candidates of two lists in a row are the first list's candidates followed by the second's |
| Resolver.FirstClaim | src/utils/modularDataLoader.ts:280-299 | the loop returns the first candidate whose chapter bounds claim the verse, or none when no candidate claims it |
| Resolver.ParashaByChapter | src/utils/modularDataLoader.ts:261-308 | a returned parasha belongs to the book and covers the chapter; `null` exactly when no parasha covers it |
| Resolver.ParashaByChapterSole | src/utils/modularDataLoader.ts:274-276 | a chapter with one candidate resolves to it whatever the verse |
| Resolver.ParashaByChapterFirstClaim | src/utils/modularDataLoader.ts:279-300 | on a shared chapter with a non-zero verse, the first candidate that claims the verse wins |
| Resolver.ParashaByChapterFallback | src/utils/modularDataLoader.ts:302-303 | with no verse, verse 0, or no claiming candidate, the first candidate is returned |
| Resolver.FindById | src/utils/modularDataLoader.ts:404 | `find` returns the first parasha with that id, and `undefined` exactly when there is none |
| Resolver.ParashaVerseRange | src/utils/modularDataLoader.ts:401-449 | an unknown parasha gives `null`; any range returned is for a chapter the parasha covers |
| Resolver.ParashaVerseRangeCases | src/utils/modularDataLoader.ts:406-444 | the five cases: outside the parasha; its only chapter; its first chapter to the structure's count; its last chapter from 1; a middle chapter, all of it |
| Resolver.StandardVerseCount | src/utils/modularDataLoader.ts:476-482 | a count is tabled exactly for chapters 1-10 of genesis, exodus and leviticus, and it is positive |
| Resolver.AvailableVersesInRange | src/utils/modularDataLoader.ts:453-462 | with a parasha range `start..end`, the verses are exactly that range, ascending |
| Resolver.AvailableVersesFallback | src/utils/modularDataLoader.ts:465-495 | without a range: `1..count` from the structure, else the standard counts, else `[1]`; `[1]` when the structure cannot be loaded |
| Resolver.MissingStartVerseHidesChapter | src/utils/modularDataLoader.ts:416-461 | a parasha whose first chapter has no `startVerse` offers no verse of that chapter |
| Resolver.ClaimedVerseIsAvailable | src/utils/modularDataLoader.ts:279-461 | a verse that `getParashaByChapter` gives to a parasha is among the verses that parasha offers for the chapter |
| Resolver.StripNiqqud | src/utils/modularDataLoader.ts:522 | the cleaned word is no longer and holds no vowel point or mark |
| Resolver.StripNiqqudAppend | src/utils/modularDataLoader.ts:522 | stripping works character by character: it distributes over concatenation |
| Resolver.StripNiqqudKeepsPlain | src/utils/modularDataLoader.ts:522 | a word without niqqud is unchanged |
| Resolver.StripNiqqudIdempotent | src/utils/modularDataLoader.ts:522 | stripping twice is stripping once |
| Resolver.LookupWord | src/utils/modularDataLoader.ts:517-529 | the cleaned word's entry if any, else the raw word's entry, else `null` exactly when neither is known |
| Resolver.WordTranslations | src/utils/modularDataLoader.ts:534-539 | the entry's meanings when present, else the single `неизвестно` placeholder |
| DataLoader.VerseKeyInjective | src/utils/modularDataLoader.ts:215 | different verses of one parasha never share a verse cache key |
| DataLoader.ChapterKeyInjective | src/utils/modularDataLoader.ts:88 | different chapters under one parasha (or `default`) never share a chapter cache key |
| DataLoader.Restore | src/utils/modularDataLoader.ts:573-602 | an entry of another version leaves the cache as it was; an entry that does not parse resets it to the empty cache |
| DataLoader.RestoreSnapshot | src/utils/modularDataLoader.ts:557-589 | loading what `saveCache` wrote gives back the same cache, stamped with the save time (a missing verse map becomes empty) |
| DataLoader.BooksIndexOf | src/utils/modularDataLoader.ts:43-48 | the books index is read exactly when the response is ok and holds a books index |
| DataLoader.BookMetadataOf | src/utils/modularDataLoader.ts:68-73 | book metadata is read exactly when the response is ok and holds book metadata |
| DataLoader.ChapterOf | src/utils/modularDataLoader.ts:116-120 | a chapter is read exactly when the response is ok and holds a chapter file |
| DataLoader.VerseOf | src/utils/modularDataLoader.ts:226-230 | a verse is read exactly when the response is ok and holds a verse file |
| DataLoader.CommentatorsOf | src/utils/modularDataLoader.ts:147-151 | the commentators index is read exactly when the response is ok and holds one |
| DataLoader.ParashasOf | src/utils/modularDataLoader.ts:172-176 | the parasha table is read exactly when the response is ok and holds one |
| DataLoader.LexiconOf | src/utils/modularDataLoader.ts:344-356 | a lexicon is read exactly when the response is ok and holds one |
| DataLoader.StructureOf | src/utils/modularDataLoader.ts:501-511 | the structure is available exactly when the response is ok and holds it; otherwise `getTorahStructure` throws |
| DataLoader.ChaptersIn | src/utils/modularDataLoader.ts:321-325 | the kept chapters are exactly those of the range that the book has available, in order |
| DataLoader.ChaptersInAppend | src/utils/modularDataLoader.ts:321-325 | one more chapter at the end of the range adds it at the end of the result exactly when it is available |
| DataLoader.ChaptersInAscending | src/utils/modularDataLoader.ts:321-325 | the filter keeps order: an ascending range gives ascending chapters |
| DataLoader.AvailableInRange | src/utils/modularDataLoader.ts:319-326 | the loop from `startChapter` to `endChapter` keeps exactly `ChaptersIn(Consecutive(start, end), available)`, in ascending order |
| DataLoader.ModularDataLoader.constructor | src/utils/modularDataLoader.ts:615-617 | a new loader starts from the empty cache and adopts a persisted entry at once |
| DataLoader.ModularDataLoader.SaveCache | src/utils/modularDataLoader.ts:557-568 | the stored entry is the cache with the version and the current time; nothing else changes |
| DataLoader.ModularDataLoader.LoadCache | src/utils/modularDataLoader.ts:573-602 | the cache becomes `Restore` of the stored entry; storage, clock and fetches are unchanged |
| DataLoader.ModularDataLoader.ClearCache | src/utils/modularDataLoader.ts:544-552 | the cache is emptied and stamped now, so it is not stale, and the stored entry is removed |
| DataLoader.ModularDataLoader.ShouldUpdateCache | src/utils/modularDataLoader.ts:607-613 | the cache is stale exactly when more than 24 hours have passed since its last update |
| DataLoader.ModularDataLoader.LoadBooksIndex | src/utils/modularDataLoader.ts:37-57 | a cached index is returned without a fetch; otherwise one fetch, cached and saved on success, state untouched on failure |
| DataLoader.ModularDataLoader.LoadBookMetadata | src/utils/modularDataLoader.ts:62-82 | cached metadata is returned without a fetch; otherwise one fetch of `/data/{book}/metadata.json`, cached under the book and saved on success |
| DataLoader.ModularDataLoader.LoadCommentators | src/utils/modularDataLoader.ts:140-160 | a cached index is returned without a fetch; otherwise one fetch, cached and saved on success |
| DataLoader.ModularDataLoader.LoadParashas | src/utils/modularDataLoader.ts:165-185 | a cached table with a key is returned; an empty one is refetched; it fails exactly when that fetch fails |
| DataLoader.ModularDataLoader.WithParashasIdempotent | src/utils/modularDataLoader.ts:165-168 | loading the parashot a second time changes nothing more |
| DataLoader.ModularDataLoader.LoadedParashasStay | src/utils/modularDataLoader.ts:166-168 | once a book has parashot after a load, the cached table is non-empty, so no later call fetches it again |
| DataLoader.ModularDataLoader.GetBookParashas | src/utils/modularDataLoader.ts:190-198 | the book's parashot, or `[]` for an unknown book or a failed load; it never fails |
| DataLoader.ModularDataLoader.GetParasha | src/utils/modularDataLoader.ts:248-256 | the first of the book's parashot with that id, or `null` |
| DataLoader.ModularDataLoader.GetParashaByChapter | src/utils/modularDataLoader.ts:261-308 | exactly the resolver's answer on the book's parashot |
| DataLoader.ModularDataLoader.LoadVerseFile | src/utils/modularDataLoader.ts:203-243 | the load is sent to the parasha owning the verse; a cache hit is returned as is; otherwise one fetch of `{parasha}-NNN-NNN.json`, cached and saved on success |
| DataLoader.ModularDataLoader.RedirectSettles | src/utils/modularDataLoader.ts:205-210 | the redirect target is its own target, so a verse load redirects at most once |
| DataLoader.ModularDataLoader.ChapterSourcePath | src/utils/modularDataLoader.ts:98-109 | the first file tried is the given parasha's, else the resolved parasha's, else the legacy book-level file |
| DataLoader.ModularDataLoader.LoadChapterFrom | src/utils/modularDataLoader.ts:111-130 | a failed first fetch falls back to the legacy file; a chapter without a parasha gets the given one; success is cached and saved |
| DataLoader.ModularDataLoader.LoadChapter | src/utils/modularDataLoader.ts:87-135 | a cached chapter is returned without a fetch; otherwise the fetches, the cache and the saved entry follow the three-way choice of the first file |
| DataLoader.ModularDataLoader.PreloadChapters | src/utils/modularDataLoader.ts:370-379 | preloading never drops or changes a cached chapter, whatever fails |
| DataLoader.ModularDataLoader.GetAvailableChapters | src/utils/modularDataLoader.ts:384-392 | the metadata's chapter list, `[]` on failure, and asking again gives the same list; the cache, saved entry and fetches are those of one metadata load |
| DataLoader.ModularDataLoader.GetChaptersForParasha | src/utils/modularDataLoader.ts:313-332 | `[]` for an unknown parasha, after only the parasha-table load; else its chapter range restricted to the available chapters, ascending, after the table load and then one metadata load, each cached, saved and fetched as those loads do |
| DataLoader.ModularDataLoader.LoadHebrewLexicon | src/utils/modularDataLoader.ts:337-365 | a cached lexicon is returned without a fetch; otherwise the metadata path, then the legacy path when that fails; the lexicon is cached and saved exactly when one loads |
| DataLoader.ModularDataLoader.GetTorahStructure | src/utils/modularDataLoader.ts:501-512 | the structure is fetched on every call and never cached |
| DataLoader.ModularDataLoader.GetParashaVerseRange | src/utils/modularDataLoader.ts:401-449 | exactly the resolver's range for the book's parashot and the structure as fetched; the parasha table is loaded and the structure fetched once per branch that reads it, twice for a first chapter it does not count |
| DataLoader.ModularDataLoader.GetAvailableVerses | src/utils/modularDataLoader.ts:451-496 | the loops build exactly the resolver's list of available verses; with a parasha id the table is loaded and cached as `getParashaVerseRange` does, and the structure is fetched once more when no range was found |
| DataLoader.ModularDataLoader.SearchWord | src/utils/modularDataLoader.ts:517-529 | `null` when the lexicon does not load, else the niqqud-stripped lookup; the cache, saved entry and fetches are those of one lexicon load |
| DataLoader.ModularDataLoader.GetWordTranslations | src/utils/modularDataLoader.ts:534-539 | the placeholder translation when the lexicon fails, else the looked-up entry's meanings; the cache, saved entry and fetches are those of one lexicon load |
| DataHook.VerseOfFile | src/hooks/useModularTorahData.ts:206-214 | the compatibility verse keeps number, Hebrew, words and commentaries; its `russian` is the Hebrew words joined by single spaces, which split back into those words when none holds a space |
| DataHook.VerseParasha | src/hooks/useModularTorahData.ts:189-197 | a given parasha id is kept; otherwise the chapter's first parasha (resolved without a verse), or none |
| DataHook.TorahDataHook.constructor | src/hooks/useModularTorahData.ts:52-69 | the first render holds nothing, is loading, has no error and shows 0 of 3 |
| DataHook.TorahDataHook.InitBooksIndex | src/hooks/useModularTorahData.ts:81-83 | the index is stored and progress moves to 1 of 3, or the loader's error is kept and progress stays |
| DataHook.TorahDataHook.InitCommentators | src/hooks/useModularTorahData.ts:86-88 | the commentators are stored and progress moves to 2 of 3, or the error is kept |
| DataHook.TorahDataHook.InitLexicon | src/hooks/useModularTorahData.ts:91-93 | the lexicon is stored and progress moves to 3 of 3, or the error is kept |
| DataHook.TorahDataHook.Initialize | src/hooks/useModularTorahData.ts:74-101 | each table is stored only when it and every load before it succeed; the error is the first failure's; the log shows 0 of 3 and one entry per success |
| DataHook.TorahDataHook.LoadBook | src/hooks/useModularTorahData.ts:106-122 | on success the metadata is current, with no error and progress 0 then 1 of 1; on failure the old metadata stays and the error is the loader's |
| DataHook.TorahDataHook.ChapterMetadataStep | src/hooks/useModularTorahData.ts:137-146 | the metadata is reloaded exactly when none is held or it is another book's; progress moves to 1 of 2 only then |
| DataHook.TorahDataHook.ChapterStep | src/hooks/useModularTorahData.ts:148-159 | a loaded chapter becomes current and the current verse is reset; a failure leaves both and records the error |
| DataHook.TorahDataHook.LoadChapter | src/hooks/useModularTorahData.ts:127-166 | a failed metadata load stops before the chapter; otherwise the chapter result decides chapter, verse, error and a progress log of 0, (1,) 2 of 2 |
| DataHook.TorahDataHook.VerseParashaStep | src/hooks/useModularTorahData.ts:189-199 | the parasha is the one given or resolved; none found is the error `parasha for chapter not found` |
| DataHook.TorahDataHook.VerseFileStep | src/hooks/useModularTorahData.ts:201-217 | the loaded file becomes current, and the verse too when it has words; a failure records the loader's error |
| DataHook.TorahDataHook.LoadVerse | src/hooks/useModularTorahData.ts:183-224 | the verse comes from the owning parasha's file; every failure leaves the current verse as it was; the log shows 0, 1, 2 of 2 on success |
| DataHook.TorahDataHook.NavigateToVerse | src/hooks/useModularTorahData.ts:229-247 | the current verse file, verse and error are exactly those `loadVerse` leaves; without a parasha id the current parasha becomes the one resolved from chapter and verse, with one it is left alone |
| DataHook.TorahDataHook.GetBookParashas | src/hooks/useModularTorahData.ts:302-311 | the loader's parashot for the book, also kept as the current list |
| DataHook.TorahDataHook.ClearCache | src/hooks/useModularTorahData.ts:328-341 | the loader's cache and the hook's loaded state are emptied and the verse file kept; then, as in `initialize` from an empty cache, the books index, commentators and lexicon come from the server, each stored only when it and every earlier load succeed (else left empty), the error is the first failed load's, and the progress log gains 0 of 3 plus one entry per successful load |
| Navigation.FirstParashaFor | src/components/TorahNavigation.tsx:231-236 | the id of the first parasha in list order covering the chapter, and `undefined` exactly when none covers it |
| Navigation.FirstParashaAgreesWithLoader | src/components/TorahNavigation.tsx:231-236 | the component's chapter lookup and the loader's `getParashaByChapter` without a verse pick the same parasha |
| Navigation.IndexOf | src/components/TorahNavigation.tsx:386 | `indexOf` gives the first position holding the verse, or -1 exactly when it is absent |
| Navigation.MaxOf | src/components/TorahNavigation.tsx:406 | `Math.max` of a non-empty list is one of its elements and no element exceeds it |
| Navigation.VersesOrOne | src/components/TorahNavigation.tsx:385 | the arrows work on a non-empty list: the verses, or `[1]` when there are none |
| Navigation.PrevVerse | src/components/TorahNavigation.tsx:384-391 | the previous arrow acts only above verse 1 and when the verse is found past the first position, and moves to the entry before it |
| Navigation.NextVerse | src/components/TorahNavigation.tsx:399-406 | the next arrow acts only below the largest verse; it moves to the following entry, or to the first one when the current verse is not listed |
| Navigation.ArrowsStepInOrder | src/components/TorahNavigation.tsx:384-406 | on an ascending list the arrows move strictly back and forth, and the next arrow is disabled exactly at the largest verse |
| Navigation.OrElse | src/components/TorahNavigation.tsx:180-181 | `a \|\| b` on numbers: `a` unless it is missing or 0 |
| Navigation.CollectVerses | src/components/TorahNavigation.tsx:198-200 | the push loop builds the range's verses, none when a bound is missing |
| Navigation.SpecialEntryDecides | src/components/TorahNavigation.tsx:170-181 | a shared chapter's own entry `{chapter}_{parasha}` decides the range, with its `startVerse` falling back to the parasha's |
| Navigation.OrdinaryParashaChapter | src/components/TorahNavigation.tsx:170-200 | without a shared entry, the parasha's last chapter shows 1 to `endVerse`, and a middle chapter all of its verses |
| Navigation.ParashaEffect | src/components/TorahNavigation.tsx:143-200 | a selected parasha found in the list makes the effect show exactly the verses of its range |
| Navigation.NoParashaKeepsListWhenChapterMissing | src/components/TorahNavigation.tsx:143-160 | with no parasha and no structure entry for the chapter, the verse list is left as it was |
| Navigation.UnknownParashaGivesWholeChapter | src/components/TorahNavigation.tsx:210-224 | a selected parasha missing from the list falls back to the whole chapter, or `[1]` |
| Navigation.TorahNavigation.constructor | src/components/TorahNavigation.tsx:29-45 | the first render's lists start from the props, with no structure and empty chapter and verse lists |
| Navigation.TorahNavigation.LoadTorahStructure | src/components/TorahNavigation.tsx:52-126 | both files ok: the structure, the book's parashot, chapters 1..count and the chapter's verses are taken; a non-ok answer changes nothing; a thrown error falls back to the props |
| Navigation.TorahNavigation.ShowParashaChapters | src/components/TorahNavigation.tsx:129-140 | a selected parasha in the list makes the chapter list its chapter range; otherwise the list is unchanged |
| Navigation.TorahNavigation.ShowVerses | src/components/TorahNavigation.tsx:143-226 | the verse list becomes exactly `EffectVerses` of the current state |
| Navigation.TorahNavigation.ParashaForChapter | src/components/TorahNavigation.tsx:231-236 | the first parasha of the component's list covering the chapter |
| Navigation.TorahNavigation.ChaptersForParasha | src/components/TorahNavigation.tsx:239-248 | an unknown id gives all chapters; a known one gives exactly its chapter range, ascending |
| Navigation.TorahNavigation.ChapterOptions | src/components/TorahNavigation.tsx:345 | without a parasha the select offers all chapters or `[1]`; with an unknown parasha, all chapters; with a known one, its chapters from first to last, ascending |
| Navigation.TorahNavigation.OnBookSelect | src/components/TorahNavigation.tsx:259 | choosing a book navigates to its chapter 1, verse 1, with no parasha |
| Navigation.TorahNavigation.OnParashaSelect | src/components/TorahNavigation.tsx:281-286 | choosing a listed parasha navigates to its first chapter, verse 1; an unlisted id does nothing |
| Navigation.TorahNavigation.OnChapterSelect | src/components/TorahNavigation.tsx:334-338 | choosing a chapter navigates to its verse 1 under the first parasha holding it |
| Navigation.TorahNavigation.OnVerseSelect | src/components/TorahNavigation.tsx:359 | choosing a verse keeps book, chapter and parasha |
| Navigation.TorahNavigation.OnPrev | src/components/TorahNavigation.tsx:384-391 | the previous arrow navigates exactly when `PrevVerse` has a target, keeping book, chapter and parasha |
| Navigation.TorahNavigation.OnNext | src/components/TorahNavigation.tsx:399-406 | the next arrow navigates exactly when `NextVerse` has a target, keeping book, chapter and parasha |
| Navigation.ChapterSelectRoundTrip | src/components/TorahNavigation.tsx:333-335 | a chapter shown as `toString()` in the select is read back by `parseInt` as the same number |
| Reader.InitialVerse | src/pages/Index.tsx:106-146 | at least 1; exactly 1 without a parasha; anything else only for a tabled (book, parasha, chapter) |
| Reader.InitialVerseFollowsTable | src/pages/Index.tsx:110-145 | each of the 22 tabled parashot starts at its tabled verse in its tabled chapter, and at verse 1 in the next chapter |
| Reader.InitialVerseNeedsBookId | src/pages/Index.tsx:112-145 | the table is keyed by the lower-case book id: for any other book, `Genesis` included, every chapter starts at verse 1 |
| Reader.BookIdOf | src/pages/Index.tsx:150-158 | every English name maps to one of the five book ids, and an unknown one to `genesis` |
| Reader.EnglishNameOf | src/pages/Index.tsx:91-98 | an unknown book id shows as `...` |
| Reader.BookNameRoundTrip | src/pages/Index.tsx:91-158 | a book id's English name maps back to the same id; an unknown id comes back as `genesis` |
| Reader.OrFirst | src/pages/Index.tsx:199-205 | a non-empty list is kept, an empty one becomes `[1]` |
| Reader.CommentaryEntries | src/pages/Index.tsx:345-349 | one entry per commentary of the verse file, else of the verse, in order, with a missing text as "" and an empty category |
| Reader.ReaderPage.constructor | src/pages/Index.tsx:14-20 | the page starts at Genesis 1:1 with no parasha, no active word and empty lists |
| Reader.ReaderPage.HandleNavigate | src/pages/Index.tsx:148-193 | a new book resets to chapter 1, verse 1 and no parasha; a new parasha or chapter starts at its initial verse; otherwise the request is taken as given; the active word is always cleared |
| Reader.ReaderPage.HandleWordToggle | src/pages/Index.tsx:195-197 | clicking the active word closes it; clicking any other word opens it |
| Reader.ReaderPage.SyncParasha | src/pages/Index.tsx:75-79 | a parasha loaded by the data hook becomes the page's parasha id; none leaves it alone |
| Reader.ReaderPage.NavigationChapters | src/pages/Index.tsx:199-201 | the available chapters, or `[1]` |
| Reader.ReaderPage.NavigationVerses | src/pages/Index.tsx:203-205 | the available verses, or `[1]` |
| Converter.PardesScan | scripts/convertToVerseStructure.js:55 | `words.some(w => w.pardes)` is true exactly when some word has a truthy `pardes`; it can only throw on a `null` word |
| Converter.VerseRecordOf | scripts/convertToVerseStructure.js:38-60 | a verse record is built exactly when the verse has a non-null `number` and its `words`, if truthy, is an array without a `null` word |
| Converter.VerseRecordDefaults | scripts/convertToVerseStructure.js:43-58 | book, parasha and chapter come from the chapter file or fall back to the arguments; hebrew, words and commentaries default to empty; the version is 3.0.0 and the source file is named |
| Converter.VerseRecordCompleteness | scripts/convertToVerseStructure.js:53-57 | words are complete iff there is a word; translations are pardes iff a word has `pardes`; commentaries are complete iff there is one; otherwise partial or basic |
| Converter.Written | scripts/convertToVerseStructure.js:63 | a write stores the content at the path and logs the path |
| Converter.VersesWritten | scripts/convertToVerseStructure.js:37-65 | the verse loop only adds files and writes |
| Converter.VersePaths | scripts/convertToVerseStructure.js:38-39 | one verse file path per verse entry, in order |
| Converter.ChapterConverted | scripts/convertToVerseStructure.js:15-75 | nothing happens unless the chapter file exists, parses and has a `verses` array; the conversion only adds files |
| Converter.AllVersesWritten | scripts/convertToVerseStructure.js:37-65 | when every record builds, the loop completes and writes exactly one file per verse, in order |
| Converter.EachVerseHasItsFile | scripts/convertToVerseStructure.js:37-63 | with distinct verse numbers, each verse's file ends up holding that verse's record |
| Converter.VersesWrittenStep | scripts/convertToVerseStructure.js:37-65 | one more verse is written when its record builds, and aborts the loop otherwise |
| Converter.AbortIsFinal | scripts/convertToVerseStructure.js:72-74 | once a verse throws, no later verse is converted |
| Converter.FirstFailureStops | scripts/convertToVerseStructure.js:27-74 | a verse that throws leaves exactly the earlier verses' files written and no backup |
| Converter.CompleteConversion | scripts/convertToVerseStructure.js:36-69 | a chapter whose verses all convert gets one file per verse, in order, and then its backup copy, which holds the chapter file's original content |
| Converter.VersePathIsNotChapter | scripts/convertToVerseStructure.js:38-39 | no verse file name coincides with the chapter file's name |
| Converter.VersesKeepChapter | scripts/convertToVerseStructure.js:37-69 | writing the verse files leaves the chapter file that `copyFileSync` later copies unchanged |
| Converter.DigitPrefix | scripts/convertToVerseStructure.js:101 | `\d+` takes the longest run of digits |
| Converter.MatchHere | scripts/convertToVerseStructure.js:101 | a match at a position starts with `chapter-` |
| Converter.ChapterMatch | scripts/convertToVerseStructure.js:101-103 | there is no number exactly when the pattern matches at no position of the name; otherwise the number is that of the leftmost position where it matches |
| Converter.ChapterFileNameMatches | scripts/convertToVerseStructure.js:17-103 | the name `chapter-NNN.json` of chapter `n` is matched back as `n` |
| Converter.ChapterFiles | scripts/convertToVerseStructure.js:96-97 | exactly the listing's names that start with `chapter-` and end with `.json` |
| Converter.NameLeTotal | scripts/convertToVerseStructure.js:98 | the name order used by `sort()` is total |
| Converter.InsertName | scripts/convertToVerseStructure.js:98 | inserting into a sorted list keeps it sorted and adds exactly the name |
| Converter.SortNames | scripts/convertToVerseStructure.js:98 | `sort()` yields the same names in order |
| Converter.ChapterNumbers | scripts/convertToVerseStructure.js:100-106 | at most one chapter number per name; names that do not match are skipped |
| Converter.ChapterNumbersCons | scripts/convertToVerseStructure.js:100-106 | a matching first name contributes its number first |
| Converter.ChapterFileNames | scripts/convertToVerseStructure.js:17 | one file name per chapter number |
| Converter.CanonicalChapterNumbers | scripts/convertToVerseStructure.js:96-106 | files named as the converter names chapters give back exactly their numbers, in order |
| Converter.Subdirectories | scripts/convertToVerseStructure.js:86-88 | exactly the listing's entries that are directories |
| Converter.ParashaConverted | scripts/convertToVerseStructure.js:100-106 | converting a parasha's chapters only adds files and writes |
| Converter.ParashasConverted | scripts/convertToVerseStructure.js:90-107 | converting the parashot of a book only adds files and writes |
| Converter.BookConverted | scripts/convertToVerseStructure.js:77-108 | a missing book folder changes nothing; otherwise files and writes only grow |
| Converter.DataTree.constructor | scripts/convertToVerseStructure.js:13 | the tree starts with the given files and no writes |
| Converter.DataTree.Write | scripts/convertToVerseStructure.js:63 | a write stores the content at the path and logs the path |
| Converter.DataTree.ConvertChapterToVerses | scripts/convertToVerseStructure.js:15-75 | the files and writes become exactly `ChapterConverted` of the old state |
| Converter.DataTree.ConvertParasha | scripts/convertToVerseStructure.js:93-106 | the parasha's sorted chapter files are converted in order |
| Converter.DataTree.ConvertBook | scripts/convertToVerseStructure.js:77-108 | the files and writes become exactly `BookConverted` of the old state |
| Validator.Logged | scripts/validateData.js:26-37 | an error is appended to the errors, a warning to the warnings, an info line to neither; nothing logged is taken back |
| Validator.JsonFileChecked | scripts/validateData.js:39-61 | a missing file logs one `missing` error, a parse failure one `JSON` error, both returning nothing; a parsed file returns its data and logs no problem |
| Validator.MissingFields | scripts/validateData.js:82-86 | at most one missing entry per required field |
| Validator.RequiredChecked | scripts/validateData.js:82-86 | the required-field check adds one error per missing or falsy field and nothing else |
| Validator.RequiredCheckedErrors | scripts/validateData.js:82-86 | the errors added are exactly one `FieldMissing` per missing field, in field order |
| Validator.RequiredAllPresent | scripts/validateData.js:82-86 | no error is added exactly when every required field is truthy |
| Validator.RequiredCheckedClean | scripts/validateData.js:82-86 | the required-field check adds no error exactly when every required field of the entry is truthy |
| Validator.OwnerId | scripts/validateData.js:84 | the error names the entry's `id`, or `unknown` when it is falsy |
| Validator.BookEntriesChecked | scripts/validateData.js:80-87 | the book-entry checks only add errors |
| Validator.BookEntriesClean | scripts/validateData.js:80-87 | the book entries add no error exactly when every entry has all six required fields |
| Validator.BooksIndexChecked | scripts/validateData.js:63-91 | the index is returned exactly when it parses with a `books` array, and then `stats.books` is the number of books; otherwise the counters are unchanged |
| Validator.IndexClean | scripts/validateData.js:63-91 | the index is returned with no error exactly when it is readable and every book entry is complete |
| Validator.MetadataChecked | scripts/validateData.js:93-108 | metadata is returned exactly when it parses to a truthy value, after exactly one error per missing required field |
| Validator.MetadataCleanIff | scripts/validateData.js:93-108 | the metadata adds no error exactly when its file is present and parses and, when truthy, has every required field |
| Validator.WordChecked | scripts/validateData.js:145-159 | a word is counted, a placeholder word also counts as an empty verse; it appends the `hebrew` error when that is missing, then the placeholder warning, then the no-translations warning |
| Validator.WordsErrorsEmpty | scripts/validateData.js:145-160 | a verse's words log no error exactly when every word has a truthy `hebrew` |
| Validator.WordsChecked | scripts/validateData.js:145-160 | every word is counted and every placeholder word counted as an empty verse |
| Validator.WordsCheckedEntries | scripts/validateData.js:145-160 | the words append exactly their errors and warnings, word after word, positions counted from 1 |
| Validator.PendingWarnings | scripts/validateData.js:168-173 | each warning is a `CommentaryMissing` for a checked commentator whose entry is missing or pending, at most one per commentator |
| Validator.PendingWarningsEmpty | scripts/validateData.js:168-173 | no commentary warning exactly when no checked entry is missing or pending |
| Validator.CommentariesChecked | scripts/validateData.js:168-173 | the commentary check adds no error and changes no counter |
| Validator.CommentariesCheckedEntries | scripts/validateData.js:168-173 | the warnings appended are exactly one per missing or pending commentator, in the order rashi, ramban, ibn_ezra |
| Validator.VerseFieldsChecked | scripts/validateData.js:126-139 | the verse is counted and counted as untranslated exactly when it has no `russian`; it appends the no-number and no-Hebrew errors and the no-translation warning exactly when they apply, in that order |
| Validator.VerseContentChecked | scripts/validateData.js:141-174 | the verse's words are counted, placeholders counted as empty, and a verse without commentaries counted once |
| Validator.VerseContentEntries | scripts/validateData.js:141-174 | the words' errors are appended; the words' warnings or the no-words warning, then the pending commentators or the no-commentaries warning |
| Validator.VerseErrorsEmpty | scripts/validateData.js:125-175 | a verse logs no error exactly when it has a number, a Hebrew array and no word without Hebrew |
| Validator.VerseChecked | scripts/validateData.js:125-175 | one verse raises each counter by exactly its own contribution |
| Validator.VerseCheckedEntries | scripts/validateData.js:125-175 | one verse appends exactly its errors and its warnings, in source order |
| Validator.VersesErrorsEmpty | scripts/validateData.js:125-175 | a chapter's verses log no error exactly when every verse is clean |
| Validator.VersesChecked | scripts/validateData.js:125-175 | the verse checks only add entries |
| Validator.VersesCheckedEntries | scripts/validateData.js:125-175 | a chapter's verses append exactly their entries, verse after verse |
| Validator.VersesCounted | scripts/validateData.js:125-175 | over a chapter, the verse, word, empty-verse and untranslated counters grow by the chapter's totals, and the book and chapter counters do not move |
| Validator.ChapterChecked | scripts/validateData.js:110-178 | a chapter is returned only with a `verses` array; a missing file appends exactly the one `missing` error, an unparsable one exactly the one JSON error, and both return nothing |
| Validator.ChapterBodyChecked | scripts/validateData.js:114-177 | a falsy chapter changes nothing; a truthy one without a `verses` array appends exactly the one `VersesArrayMissing` error and no warning, and is not returned |
| Validator.ChapterBodyEntries | scripts/validateData.js:119-177 | a truthy chapter with a `verses` array is returned, after exactly its verses' errors and warnings |
| Validator.ChapterCleanIff | scripts/validateData.js:110-178 | a chapter adds no error exactly when its file is present and parses and, when truthy, holds a `verses` array of clean verses |
| Validator.ChapterCounted | scripts/validateData.js:110-116 | a chapter file that loads raises `stats.chapters` by exactly one, any other by none |
| Validator.ChapterBodyCounted | scripts/validateData.js:114-116 | a truthy chapter is counted once, even without a `verses` array |
| Validator.VersesKeepChapters | scripts/validateData.js:125-175 | checking verses never changes the chapter count |
| Validator.CommentatorEntriesChecked | scripts/validateData.js:193-200 | the commentator-entry checks only add errors |
| Validator.CommentatorEntriesClean | scripts/validateData.js:193-200 | the commentator entries add no error exactly when every entry has all six required fields |
| Validator.CommentatorsChecked | scripts/validateData.js:180-204 | the index is returned only with a `commentators` array; only errors are added |
| Validator.CommentatorsCleanIff | scripts/validateData.js:180-204 | the commentators add no error exactly when the file is present and parses and, when truthy, holds a `commentators` array of complete entries |
| Validator.LexiconChecked | scripts/validateData.js:206-230 | no lexicon anywhere is exactly one `not found` error; a lexicon only at the old path draws the `old location` warning |
| Validator.LexiconCleanIff | scripts/validateData.js:206-230 | the lexicon adds no error exactly when the file at the new location parses, or there is none there and the old one parses |
| Validator.ChaptersChecked | scripts/validateData.js:253-255 | the chapter checks only add entries |
| Validator.ChaptersCleanIff | scripts/validateData.js:253-255 | a book's chapters add no error exactly when every one is clean |
| Validator.BookChecked | scripts/validateData.js:244-257 | one book's checks only add entries |
| Validator.BookCleanIff | scripts/validateData.js:244-257 | a book adds no error exactly when its metadata is clean and so is every chapter it lists |
| Validator.BooksChecked | scripts/validateData.js:244-257 | the book checks only add entries |
| Validator.BooksCleanIff | scripts/validateData.js:244-257 | the books add no error exactly when every one is clean |
| Validator.AllChecked | scripts/validateData.js:232-264 | a run only adds entries; without a books index it adds exactly two errors (missing file, critical) and no warning |
| Validator.AllCleanIff | scripts/validateData.js:232-264 | a whole run adds no error exactly when the data tree is clean: a readable index of complete, clean books, clean commentators and a clean lexicon |
| Validator.ReportOf | scripts/validateData.js:305-311 | the report succeeds exactly when no error was logged, and carries the errors, warnings and counters |
| Validator.ExitCode | scripts/validateData.js:325 | the exit code is 0 or 1, and 0 exactly on success |
| Validator.WarningsDoNotFail | scripts/validateData.js:305-325 | warnings and counters never change the exit code |
| Validator.ErrorsAreFinal | scripts/validateData.js:232-325 | once an error is logged, the run exits with 1 |
| Validator.MissingIndexFails | scripts/validateData.js:236-240 | a tree without a books index fails the run |
| Validator.CleanDataSucceeds | scripts/validateData.js:232-325 | a run from a fresh validator exits with 0 exactly when the data tree is clean, so any failed check on a present file exits with 1 |
| Validator.FirstNull | scripts/validateData.js:80-87 | the first null element, or the length: every element before it is non-null |
| Validator.FirstThrowingCommentary | scripts/validateData.js:168-173 | the first commentator whose entry is truthy but neither a string nor an array, or the length |
| Validator.FirstThrowingVerse | scripts/validateData.js:125-175 | the first verse that throws, or the length |
| Validator.FirstThrowingChapter | scripts/validateData.js:253-255 | the first chapter that throws, or the length |
| Validator.FirstThrowingBook | scripts/validateData.js:244-257 | the first book that throws, or the length |
| Validator.DataValidator.constructor | scripts/validateData.js:12-24 | a new validator has no entries and all counters at 0 |
| Validator.DataValidator.Log | scripts/validateData.js:26-37 | the state becomes `Logged` of the old state |
| Validator.DataValidator.ValidateJsonFile | scripts/validateData.js:47-61 | state and result are exactly `JsonFileChecked` |
| Validator.DataValidator.CheckRequired | scripts/validateData.js:82-86 | the loop over the fields leaves exactly `RequiredChecked` |
| Validator.DataValidator.ValidateBooksIndex | scripts/validateData.js:63-91 | it throws exactly when the readable index holds a null book; otherwise state and result are exactly `BooksIndexChecked` |
| Validator.DataValidator.CheckBookEntries | scripts/validateData.js:80-87 | it throws exactly when an entry is null; otherwise the loop leaves exactly `BookEntriesChecked` |
| Validator.DataValidator.ValidateBookMetadata | scripts/validateData.js:93-108 | state and result are exactly `MetadataChecked` |
| Validator.DataValidator.CheckWord | scripts/validateData.js:146-159 | it throws exactly on a null word; otherwise the state becomes `WordChecked` |
| Validator.DataValidator.CheckWords | scripts/validateData.js:145-160 | it throws exactly when a word is null; otherwise the loop leaves exactly `WordsChecked` |
| Validator.DataValidator.CheckCommentaries | scripts/validateData.js:168-173 | it throws exactly when a checked entry is truthy but neither a string nor an array; otherwise the loop over rashi, ramban and ibn_ezra leaves exactly `CommentariesChecked` |
| Validator.DataValidator.CheckVerseFields | scripts/validateData.js:126-139 | it throws exactly on a null verse; otherwise the state becomes `VerseFieldsChecked` |
| Validator.DataValidator.CheckVerseContent | scripts/validateData.js:141-174 | it throws exactly on a null word or an unsearchable commentary; otherwise the state becomes `VerseContentChecked` |
| Validator.DataValidator.CheckVerse | scripts/validateData.js:125-175 | it throws exactly when the verse does; otherwise the state becomes `VerseChecked` |
| Validator.DataValidator.CheckVerses | scripts/validateData.js:125-175 | it throws exactly when some verse does; otherwise the loop leaves exactly `VersesChecked` |
| Validator.DataValidator.ValidateChapter | scripts/validateData.js:110-178 | it throws exactly on a null chapter number or a verse that throws; otherwise state and result are exactly `ChapterChecked` |
| Validator.DataValidator.ValidateCommentators | scripts/validateData.js:180-204 | it throws exactly when the commentators array holds null; otherwise state and result are exactly `CommentatorsChecked` |
| Validator.DataValidator.CheckCommentatorEntries | scripts/validateData.js:193-200 | it throws exactly when an entry is null; otherwise the loop leaves exactly `CommentatorEntriesChecked` |
| Validator.DataValidator.ValidateLexicon | scripts/validateData.js:206-230 | state and result are exactly `LexiconChecked` |
| Validator.DataValidator.ValidateChapters | scripts/validateData.js:253-255 | it throws exactly when some listed chapter does; otherwise the loop leaves exactly `ChaptersChecked` |
| Validator.DataValidator.ValidateBook | scripts/validateData.js:244-257 | it throws exactly on an `id` that is not a string or a chapter that throws; otherwise the state becomes `BookChecked` |
| Validator.DataValidator.ValidateBooks | scripts/validateData.js:244-257 | it throws exactly when some book does; otherwise the loop leaves exactly `BooksChecked` |
| Validator.DataValidator.ValidateAll | scripts/validateData.js:232-264 | there is no report exactly when the run throws; otherwise the state becomes `AllChecked` and the report is its `getReport` |
| Validator.RunValidation | scripts/validateData.js:315-326 | a run that throws has no report and exits with 1; otherwise the report is that of a whole run from a fresh validator; the exit code is 0 exactly when nothing throws and the tree is clean |
| AllBooks.PlanOf | scripts/createAllBooksStructure.js:172 | a book has a plan exactly when its id is listed, and the plan found is the one listed under that id |
| AllBooks.VerseStubOf | scripts/createAllBooksStructure.js:106-166 | a stub names its book, parasha, chapter and verse, holds three placeholder words whose Hebrew matches the `hebrew` list, one `common` translation each, and Rashi and Ramban commentaries only |
| AllBooks.PlaceholdersDistinct | scripts/createAllBooksStructure.js:112-116 | two placeholder words are equal only for the same verse and position |
| AllBooks.StubWordsDistinct | scripts/createAllBooksStructure.js:106-116 | a word of one verse stub equals a word of another only for the same verse and position, so a stub's three words are distinct |
| AllBooks.MetadataOf | scripts/createAllBooksStructure.js:200-207 | a parasha's metadata carries its id, its chapter list and data version `3.0.0` |
| AllBooks.VerseCount | scripts/createAllBooksStructure.js:215 | the i-th chapter's verse count is `verses[i]`, and none past the list |
| AllBooks.TotalVersesIsPlannedCount | scripts/createAllBooksStructure.js:204-217 | the verse files the loops plan for the first k chapters number the sum of their verse counts |
| AllBooks.MetadataCounts | scripts/createAllBooksStructure.js:203-204 | `totalChapters` is the number of chapters and `totalVerses` the number of verse files planned |
| AllBooks.VersePathInjective | scripts/createAllBooksStructure.js:218-219 | within a parasha, distinct (chapter, verse) pairs get distinct file names |
| AllBooks.MetadataIsNotAVerse | scripts/createAllBooksStructure.js:209-219 | `metadata.json` never collides with a verse file |
| AllBooks.MetadataPathInjective | scripts/createAllBooksStructure.js:192-209 | distinct parashas of a book have distinct metadata files |
| AllBooks.CreateIfAbsent | scripts/createAllBooksStructure.js:222-226 | an existing verse file is left alone and not counted; a missing one is written and counted once |
| AllBooks.CreatedAll | scripts/createAllBooksStructure.js:213-228 | after the loops every listed file exists, existing files are unchanged, and the counter grows by the number of files added |
| AllBooks.CreatedAllAppend | scripts/createAllBooksStructure.js:213-228 | creating two runs of files in one go is creating them one run after the other |
| AllBooks.CreatedAllContents | scripts/createAllBooksStructure.js:222-224 | a file that did not exist holds the content planned for it |
| AllBooks.FreshAllCounted | scripts/createAllBooksStructure.js:222-226 | on a tree holding none of the files, every listed file is counted |
| AllBooks.ExistingUntouched | scripts/createAllBooksStructure.js:221-222 | when every file exists, nothing changes and nothing is counted |
| AllBooks.VerseEntries | scripts/createAllBooksStructure.js:217-224 | a chapter of n verses lists verses 1 to n in order, each with its path and stub |
| AllBooks.ChapterEntries | scripts/createAllBooksStructure.js:213-228 | the first k chapters list as many files as their verse counts add up to |
| AllBooks.ChapterEntryShape | scripts/createAllBooksStructure.js:213-224 | each listed file is the stub of one of those chapters, stored under that verse's path |
| AllBooks.ChaptersCreated | scripts/createAllBooksStructure.js:213-228 | the chapter loop creates exactly the listed files |
| AllBooks.PlannedVersesListed | scripts/createAllBooksStructure.js:213-217 | every verse 1..`verses[i]` of every chapter i is listed |
| AllBooks.VerseEntriesDistinct | scripts/createAllBooksStructure.js:217-219 | a chapter's verse files are all different |
| AllBooks.ChapterEntriesDistinct | scripts/createAllBooksStructure.js:213-219 | with distinct chapter numbers, a parasha's verse files are all different |
| AllBooks.MetadataWritten | scripts/createAllBooksStructure.js:209-210 | the metadata file is written on every run and is never counted |
| AllBooks.ParashaCreated | scripts/createAllBooksStructure.js:189-231 | after one parasha its metadata file holds its metadata, its verse files exist, and every other existing file is kept |
| AllBooks.ParashaCompletes | scripts/createAllBooksStructure.js:189-231 | one pass leaves the parasha complete |
| AllBooks.PlannedVerseExists | scripts/createAllBooksStructure.js:213-226 | every planned verse file exists afterwards |
| AllBooks.NewVerseIsItsStub | scripts/createAllBooksStructure.js:221-224 | a planned verse file that was missing now holds exactly its stub |
| AllBooks.RerunParashaChangesNothing | scripts/createAllBooksStructure.js:209-226 | a second pass over a complete parasha changes no file and counts nothing |
| AllBooks.FreshParashaCount | scripts/createAllBooksStructure.js:204-226 | on a tree holding none of its verses, a parasha adds `totalVerses` to the counter |
| AllBooks.OnlyPlannedVerses | scripts/createAllBooksStructure.js:213-219 | every file a parasha lists is the path of a planned verse |
| AllBooks.OnlyPlannedVersesIn | scripts/createAllBooksStructure.js:213-219 | the same, for the first k chapters |
| AllBooks.ParashasCreated | scripts/createAllBooksStructure.js:189-231 | the parasha loop keeps every existing path and never lowers the counter |
| AllBooks.CompletePreserved | scripts/createAllBooksStructure.js:189-231 | creating one parasha leaves any other complete parasha complete |
| AllBooks.ParashasComplete | scripts/createAllBooksStructure.js:189-231 | with distinct parasha ids, every parasha of the book is complete afterwards |
| AllBooks.RerunParashasChangeNothing | scripts/createAllBooksStructure.js:189-231 | a second pass over complete parashas changes nothing |
| AllBooks.BookCreated | scripts/createAllBooksStructure.js:171-176 | an unknown book changes nothing and counts nothing; a known one only adds files |
| AllBooks.WellFormedChaptersDistinct | scripts/createAllBooksStructure.js:16-101 | ascending chapter lists hold no chapter twice |
| AllBooks.TorahStructureWellFormed | scripts/createAllBooksStructure.js:16-101 | the table lists five books, each with distinct parasha ids and ascending chapters matched by verse counts |
| AllBooks.SecondRunCreatesNothing | scripts/createAllBooksStructure.js:171-234 | running a book's creation again creates no file and changes nothing |
| AllBooks.BookTotal | scripts/createAllBooksStructure.js:249-251 | a book's verse total is never negative |
| AllBooks.StructureBuilder.constructor | scripts/createAllBooksStructure.js:16-101 | the builder starts on the given tree with `TORAH_STRUCTURE` as its plan |
| AllBooks.StructureBuilder.CreateVerses | scripts/createAllBooksStructure.js:217-227 | the verse loop leaves exactly `CreatedAll` of the chapter's verse files |
| AllBooks.StructureBuilder.CreateChapters | scripts/createAllBooksStructure.js:213-228 | the chapter loop leaves exactly `ChaptersCreated` |
| AllBooks.StructureBuilder.CreateParasha | scripts/createAllBooksStructure.js:192-228 | one parasha leaves exactly `ParashaCreated` |
| AllBooks.StructureBuilder.CreateParashas | scripts/createAllBooksStructure.js:189-231 | the parasha loop leaves exactly `ParashasCreated` |
| AllBooks.StructureBuilder.CreateBookStructure | scripts/createAllBooksStructure.js:171-234 | tree and file count are exactly `BookCreated` |
| AllBooks.StructureBuilder.VerseTotal | scripts/createAllBooksStructure.js:249-251 | the reduce loop returns `BookTotal` |
| AllBooks.BooksCreated | scripts/createAllBooksStructure.js:239-259 | running `createBookStructure` for each book in turn keeps every file that was there |
| AllBooks.StructureBuilder.CreateAllBooks | scripts/createAllBooksStructure.js:239-259 | the grand total is the sum of every book's verse counts in the plan, and the file tree is what `createBookStructure` for each book of the plan, in order, leaves |
| FullStructure.NumberOf | scripts/generateFullStructure.js:121 | `totalVerses += count` stays numeric for a number, a boolean (as 1 or 0) or `null` (as 0); undefined and an object give no number |
| FullStructure.VerseLimit | scripts/generateFullStructure.js:46 | `verse <= count` reads the count with `ToNumber`: the loop runs up to it when that is a number of at least 1, and not at all otherwise |
| FullStructure.StubVerses | scripts/generateFullStructure.js:46-63 | n stub verses numbered 1 to n, each holding the single word `davar` |
| FullStructure.ChapterStubOf | scripts/generateFullStructure.js:36-66 | a chapter stub names its book, parasha and chapter, keeps the count as given, and holds one stub verse per counted verse |
| FullStructure.NumericCountStub | scripts/generateFullStructure.js:36-66 | a count n of at least 1 gives verses numbered 1 through n |
| FullStructure.InitialMetadata | scripts/generateFullStructure.js:68-92 | the metadata copies id, number, names, chapter bounds and content, defaults a falsy start verse to 1 and a falsy end verse to `null`, and starts with no chapters and 0 verses |
| FullStructure.ParashaId | scripts/generateFullStructure.js:107 | a parasha has a usable id exactly when its `id` is a string |
| FullStructure.ChapterRange | scripts/generateFullStructure.js:116 | the loop visits ascending chapters; with a numeric start and an end bound that `ToNumber` reads as a number, exactly start to that number, and otherwise none |
| FullStructure.MetadataIsNotAChapter | scripts/generateFullStructure.js:112-125 | `metadata.json` never collides with a chapter file |
| FullStructure.ChapterPathInjective | scripts/generateFullStructure.js:124-125 | distinct chapters get distinct chapter files |
| FullStructure.Index | scripts/generateFullStructure.js:117 | `chaptersData[chapter]` reads the key of an object, the element of an array, and nothing of a scalar |
| FullStructure.ChapterEntry | scripts/generateFullStructure.js:117 | with no `books` in the structure there is never chapter data |
| FullStructure.WithData | scripts/generateFullStructure.js:115-120 | the chapters kept are exactly those of the range with data |
| FullStructure.WithDataStep | scripts/generateFullStructure.js:116-120 | each loop step appends its chapter exactly when it has data |
| FullStructure.WithDataAscending | scripts/generateFullStructure.js:116-120 | the kept chapters stay in ascending order |
| FullStructure.CountsOf | scripts/generateFullStructure.js:121 | the kept chapters have verse counts exactly when each one's `verses` is a number, and then in order |
| FullStructure.Plus | scripts/generateFullStructure.js:121 | adding to an unknown total gives an unknown total; otherwise the sum |
| FullStructure.ScanMissing | scripts/generateFullStructure.js:117 | without `books` in the structure, the first chapter visited throws and nothing is written |
| FullStructure.ScanShape | scripts/generateFullStructure.js:116-135 | the chapter loop keeps every existing file, adds exactly the chapter files of the chapters with data, and lists those chapters |
| FullStructure.ScanTotal | scripts/generateFullStructure.js:121 | the loop's total is the verse sum over the chapters with data |
| FullStructure.ScanNewChapter | scripts/generateFullStructure.js:127-129 | a chapter file that was missing now holds that chapter's stub |
| FullStructure.ParashaShape | scripts/generateFullStructure.js:106-146 | one parasha keeps every existing file, adds exactly its metadata and chapter files, and throws exactly when its fields cannot be read |
| FullStructure.ParashaNewMetadata | scripts/generateFullStructure.js:137-142 | a missing metadata file is written with the parasha's final metadata |
| FullStructure.MetadataWrittenShape | scripts/generateFullStructure.js:140-145 | writing the metadata keeps every existing file, and adds only `metadata.json` |
| FullStructure.MetadataWrittenNew | scripts/generateFullStructure.js:137-142 | a missing metadata file receives the chapters and total the loop gathered |
| FullStructure.MetadataWrittenKeeps | scripts/generateFullStructure.js:140-145 | any other existing file keeps its content |
| FullStructure.MetadataChapters | scripts/generateFullStructure.js:115-137 | `chapters` equals `availableChapters`, which holds exactly the chapters from the numeric start to the end bound read by `ToNumber` that have data |
| FullStructure.MetadataChaptersAscending | scripts/generateFullStructure.js:115-137 | the available chapters are ascending |
| FullStructure.MetadataTotal | scripts/generateFullStructure.js:89-121 | `totalVerses` is the sum of the available chapters' verse counts, unknown when one is not a number |
| FullStructure.ParashaNewChapter | scripts/generateFullStructure.js:116-133 | every chapter with data whose file was missing now holds its stub |
| FullStructure.BookParashas | scripts/generateFullStructure.js:95-99 | a null index or a present non-array entry throws; a falsy entry is not found; an array is iterated |
| FullStructure.SomeParashaThrowsStep | scripts/generateFullStructure.js:106 | a book throws exactly when one of its parashas, checked in order, throws |
| FullStructure.ParashasThrew | scripts/generateFullStructure.js:106-146 | the parasha loop throws exactly when one of the parashas throws |
| FullStructure.ParashasShape | scripts/generateFullStructure.js:106-146 | the parasha loop keeps every existing file and adds exactly the parashas' paths |
| FullStructure.BookGenerated | scripts/generateFullStructure.js:94-99 | a book without parashas changes nothing and does not throw; a lookup that throws changes nothing |
| FullStructure.BookShape | scripts/generateFullStructure.js:94-147 | one book keeps every existing file, adds exactly its paths, and throws exactly when its lookup or a parasha throws |
| FullStructure.SomeBookThrowsStep | scripts/generateFullStructure.js:154-156 | a run throws exactly when one of the books, taken in order, throws |
| FullStructure.BooksThrew | scripts/generateFullStructure.js:154-156 | the book loop throws exactly when a book throws |
| FullStructure.BooksShape | scripts/generateFullStructure.js:154-156 | the book loop keeps every existing file and adds exactly the books' paths |
| FullStructure.ExistingFilesKept | scripts/generateFullStructure.js:127-145 | no existing file is ever overwritten |
| FullStructure.RerunChangesNothing | scripts/generateFullStructure.js:149-160 | running the generator a second time changes no file |
| FullStructure.BooksAfterThrow | scripts/generateFullStructure.js:154-156 | once a book throws, the later books are not processed |
| FullStructure.ParashasAfterThrow | scripts/generateFullStructure.js:106 | once a parasha throws, the later parashas are not processed |
| FullStructure.RangeLength | scripts/generateFullStructure.js:181-183 | the statistics count as many chapter files as the generator's chapter loop visits |
| FullStructure.BookFilesStep | scripts/generateFullStructure.js:177-184 | each parasha adds one metadata file plus one file per chapter in its range |
| FullStructure.Spans | scripts/generateFullStructure.js:181-183 | one chapter-range length per parasha |
| FullStructure.BookFilesFormula | scripts/generateFullStructure.js:174-184 | a book's file count is its number of parashas plus the lengths of their chapter ranges |
| FullStructure.SpansSnoc | scripts/generateFullStructure.js:177-184 | the range lengths of a longer list extend those of the shorter |
| FullStructure.StatisticsStep | scripts/generateFullStructure.js:170-189 | the statistics loop folds one book at a time |
| FullStructure.StatisticsStayNone | scripts/generateFullStructure.js:170-189 | once the statistics throw, they stay thrown |
| FullStructure.NoThrowNoNull | scripts/generateFullStructure.js:106-107 | a parasha list that generates without throwing holds no `null` |
| FullStructure.StatisticsDefined | scripts/generateFullStructure.js:162-192 | when no book throws during generation, the statistics do not throw either |
| FullStructure.AllBooksStatistics | scripts/generateFullStructure.js:149-160 | a generation that completes always yields statistics |
| FullStructure.TorahStructureGenerator.constructor | scripts/generateFullStructure.js:10-18 | the generator holds the three loaded indexes and the current tree |
| FullStructure.TorahStructureGenerator.CreateChapterStub | scripts/generateFullStructure.js:36-66 | the verse loop builds exactly `ChapterStubOf` |
| FullStructure.TorahStructureGenerator.ScanChapters | scripts/generateFullStructure.js:115-135 | the chapter loop leaves exactly `ChaptersScanned` |
| FullStructure.TorahStructureGenerator.GenerateParasha | scripts/generateFullStructure.js:106-146 | the tree and the throw are exactly `ParashaGenerated` |
| FullStructure.TorahStructureGenerator.GenerateBookStructure | scripts/generateFullStructure.js:94-147 | the tree and the throw are exactly `BookGenerated` |
| FullStructure.TorahStructureGenerator.GenerateAllBooks | scripts/generateFullStructure.js:149-160 | the tree is `AllGenerated`, and statistics follow only when no book threw |
| FullStructure.TorahStructureGenerator.CountChapters | scripts/generateFullStructure.js:181-183 | the counting loop, which compares with the end bound read by `ToNumber`, returns the chapter-range length |
| FullStructure.TorahStructureGenerator.CountBook | scripts/generateFullStructure.js:174-184 | the parasha loop returns `BookStatistics` |
| FullStructure.TorahStructureGenerator.PrintStatistics | scripts/generateFullStructure.js:162-192 | the totals are `StatisticsOf` the five books |
| FullStructure.TorahStructureGenerator.CountBooks | scripts/generateFullStructure.js:170-189 | the book loop returns `StatisticsOf` |
| FullStructure.TorahStructureGenerator.AddBookCounts | scripts/generateFullStructure.js:171-188 | one book's folders and files are added to the totals, or the totals are kept when it has no parashas |
| DataStructure.Counts | scripts/createDataStructure.js:114-115 | one count per book, in order |
| DataStructure.TotalIsSum | scripts/createDataStructure.js:114-115 | the `reduce` over the books is the sum of their counts |
| DataStructure.BooksIndexOf | scripts/createDataStructure.js:99-121 | the index lists every book in order with its id, English, Hebrew and Russian names, transliteration, chapter and verse counts and description, counts the books, and sums their chapters and verses |
| DataStructure.ProgressOf | scripts/createDataStructure.js:274-312 | the tracker counts the books, sums chapters and verses, marks 15 verses done, holds the fixed per-book progress shares and the three completion estimates, and plans 2 hours for each remaining verse |
| DataStructure.TorahTotals | scripts/createDataStructure.js:12-90 | the five books hold 187 chapters and 5852 verses, leaving 5837 verses and 11674 hours of work |
| DataStructure.NumbersOf | scripts/createDataStructure.js:136 | the chapter numbers, one per chapter entry, in order |
| DataStructure.BookMetadataOf | scripts/createDataStructure.js:123-143 | a book's metadata copies its names and counts, lists its chapter entries and their numbers, or no entries and chapters 1 to 3 without them, at data version `1.0.0` |
| DataStructure.MetadataListsTemplates | scripts/createDataStructure.js:136-347 | the available chapters are exactly the chapters that get a template, in the same order |
| DataStructure.TitleOr | scripts/createDataStructure.js:157 | a present non-empty title is kept, anything else falls back |
| DataStructure.ThemeOr | scripts/createDataStructure.js:158 | a present non-empty theme is kept, anything else falls back |
| DataStructure.VersesOr | scripts/createDataStructure.js:159 | a present non-zero verse count is kept, anything else falls back |
| DataStructure.ChapterTemplateOf | scripts/createDataStructure.js:154-206 | a template names its book and chapter, falls back to `Глава n`, the undefined-theme text and 31 verses, holds the one placeholder verse, reports `1/total` verses done and marks words, translations and commentaries as still to be filled |
| DataStructure.DefaultTitlesAgree | scripts/createDataStructure.js:340-344 | the built-in chapters 1–3 get the same title as a chapter with no entry, and no theme |
| DataStructure.ChapterPathIsNotMetadata | scripts/createDataStructure.js:100-146 | a chapter file never collides with a book's metadata file or the three index files |
| DataStructure.ChapterPathInjective | scripts/createDataStructure.js:146 | distinct chapters of a book get distinct files |
| DataStructure.BookMetadataPathInjective | scripts/createDataStructure.js:124 | distinct books get distinct metadata files |
| DataStructure.TemplateCommentatorsIndexed | scripts/createDataStructure.js:188-269 | every commentary of a template names a commentator in the index |
| DataStructure.WrittenUnion | scripts/createDataStructure.js:119-141 | unconditional writes overlay the tree |
| DataStructure.WrittenElsewhere | scripts/createDataStructure.js:119-141 | a file not written keeps its content |
| DataStructure.WrittenAppend | scripts/createDataStructure.js:327-335 | writes in one go equal the same writes one after the other |
| DataStructure.CreateIfAbsent | scripts/createDataStructure.js:145-210 | an existing chapter file is kept; a missing one is written |
| DataStructure.CreatedShape | scripts/createDataStructure.js:339-349 | template creation keeps every existing file and adds exactly the listed paths |
| DataStructure.CreatedPresent | scripts/createDataStructure.js:149-152 | when every template file exists, nothing changes |
| DataStructure.CreatedAppend | scripts/createDataStructure.js:339-349 | creating templates in one go equals creating them book after book |
| DataStructure.CreatedContent | scripts/createDataStructure.js:145-210 | a template file that was missing holds its template |
| DataStructure.BaseWritten | scripts/createDataStructure.js:327-329 | the three index files are written in order, each overwriting any earlier one |
| DataStructure.IndexPathsDistinct | scripts/createDataStructure.js:100-275 | the three index files have distinct paths |
| DataStructure.MetadataWrites | scripts/createDataStructure.js:333-335 | one metadata write per book, in order |
| DataStructure.TemplateEntries | scripts/createDataStructure.js:340-348 | one template per chapter to create, in order, each from its chapter entry |
| DataStructure.AllTemplatesHas | scripts/createDataStructure.js:339-349 | every chapter to create of every book is listed |
| DataStructure.TemplatesCreated | scripts/createDataStructure.js:339-349 | after the run every chapter to create has a file |
| DataStructure.DefaultTemplatesCreated | scripts/createDataStructure.js:340-344 | a book without chapter entries gets chapters 1, 2 and 3 |
| DataStructure.ChapterNotWritten | scripts/createDataStructure.js:327-335 | the unconditional writes never touch a chapter file |
| DataStructure.ExistingChapterKept | scripts/createDataStructure.js:148-152 | an existing chapter file survives the run unchanged |
| DataStructure.ScriptShape | scripts/createDataStructure.js:314-362 | the run adds exactly the written and template paths, and every file it does not write keeps its content |
| DataStructure.RerunChangesNothing | scripts/createDataStructure.js:314-362 | a second run leaves the tree as the first left it |
| DataStructure.IndexFilesWritten | scripts/createDataStructure.js:327-329 | after the run the books index and progress files hold the freshly computed contents |
| DataStructure.MetadataWritten | scripts/createDataStructure.js:333-335 | with distinct book ids, every book's metadata file holds its metadata |
| DataStructure.MetadataWrittenAt | scripts/createDataStructure.js:333-335 | the same, for the metadata writes alone |
| DataStructure.NewTemplateContent | scripts/createDataStructure.js:346-348 | with distinct chapter numbers, a missing chapter file receives the template of its entry |
| DataStructure.TorahBooksWellFormed | scripts/createDataStructure.js:12-90 | the book ids are distinct and each book's chapter entries are numbered 1, 2, … in order |
| DataStructure.DataStructureScript.constructor | scripts/createDataStructure.js:12-90 | the script starts from the given tree with `TORAH_BOOKS` |
| DataStructure.DataStructureScript.CreateBooksIndex | scripts/createDataStructure.js:99-121 | exactly `books.json` changes, to the books index |
| DataStructure.DataStructureScript.CreateCommentatorsIndex | scripts/createDataStructure.js:212-272 | exactly `commentators.json` changes, to the commentator list |
| DataStructure.DataStructureScript.CreateProgressTracker | scripts/createDataStructure.js:274-312 | exactly `progress.json` changes, to the tracker |
| DataStructure.DataStructureScript.CreateBookMetadata | scripts/createDataStructure.js:123-143 | exactly the book's `metadata.json` changes, to its metadata |
| DataStructure.DataStructureScript.CreateEmptyChapterTemplate | scripts/createDataStructure.js:145-210 | an existing chapter file leaves the tree unchanged; otherwise exactly that file is added, holding its template |
| DataStructure.DataStructureScript.CreateBookTemplates | scripts/createDataStructure.js:339-349 | the loop over a book's chapters leaves exactly `Created` of its templates |
| DataStructure.DataStructureScript.CreateIndexes | scripts/createDataStructure.js:327-329 | the three index writes leave exactly `Written` of them |
| DataStructure.DataStructureScript.CreateAllBookMetadata | scripts/createDataStructure.js:333-335 | the loop leaves exactly `Written` of the metadata writes |
| DataStructure.DataStructureScript.CreateAllTemplates | scripts/createDataStructure.js:339-349 | the loop over the books leaves exactly `Created` of all templates |
| DataStructure.DataStructureScript.CreateDataStructure | scripts/createDataStructure.js:314-362 | the whole run leaves exactly `ScriptRun` of the old tree |

## Left out

- I/O: `fetch`, `localStorage`, `fs`, `process.exit`, `window.location.reload` and the browser `caches` become maps and returned values. Network timing, partial reads and disk errors other than "missing" or "unparsable" are not modelled.
- The `fetch` options (the `?v=` cache-busting query and the `no-cache` headers) are dropped, because the file they fetch does not depend on them.
- Concurrency: `Promise.all` and `Promise.allSettled` (the loader's `preloadChapters`, the structure fetch in `src/components/TorahNavigation.tsx` lines 56-73) run one request after the other. Interleavings of concurrent React effects are not modelled.
- Timestamps: `lastUpdated` and `lastCacheUpdate` are integer milliseconds read from a clock field. The ISO date strings the scripts write are left out of the file contents.
- Console logging, including the emoji progress lines of every script and the validator's printed report and recommendations.
- `completionRate` in the validator report, because it is a floating-point percentage formatted with `toFixed(1)`.
- The validator's `main` writes its report to `metadata/validation-report.json`. The model returns the report and the exit code instead of writing them.
- JSX markup, Tailwind class tables, `src/components/TorahWord.tsx` and `src/components/TorahWordNew.tsx`, because they are presentation only.
- React effect scheduling in `src/pages/Index.tsx`. The `loadNavigation` effect (lines 43-63) and the navigate-on-change effect (lines 66-72) are not modelled. The page's state transitions and the data hook's `navigateToVerse` are.
- `getCurrentBookMeta` with loaded book metadata (`src/pages/Index.tsx` lines 81-88). Only its fallback by book id is modelled.
- `toLowerCase` covers ASCII letters only, which is all the commentator names use.
- Niqqud stripping filters the fixed code points U+05B0–U+05BC, U+05C1, U+05C2, U+05C4, U+05C5 and U+05C7 rather than running a regular expression.
- `AllBooks.GrandTotal`: the numeric value of the grand total for the built-in table is not stated, because unfolding it over the whole table is too costly to prove. The table lists shared chapters under both parashot (genesis 44 appears in miketz and vayigash with 34 verses each), so the total exceeds the Torah's verse count.
- `convertToVerseStructure.js` `main` converts only `genesis`. `Converter.DataTree.ConvertBook` takes any book id, and there is no separate member for that one call.
- Navigation.TorahNavigation.OnChapterSelect requires a non-empty digit string, because the select only offers chapter numbers rendered in decimal.
- Navigation.TorahNavigation.OnVerseSelect requires a non-empty digit string for the same reason.
- DataLoader.ModularDataLoader.PreloadChapters states only that cached chapters are kept and the parasha table is unchanged. What each failed or successful load adds is stated by `LoadChapter`, which it calls.
- Converter.MatchHere states only that a match begins with `chapter-`. `Converter.ChapterFileNameMatches` states that a real chapter file name is read back as its number.
- Validator.DataValidator.ValidateAll: when the run throws, only the missing report is stated. The entries and counters logged before the throw are not, because the process exits with them unreported. The same holds for every validator method that returns `thrown`.
- Text.StringToNumber: only decimal integers with an optional sign are read. Fractions, exponents, hexadecimal, binary and octal literals and `Infinity` read as NaN, because the model's numbers are integers. Unicode space separators other than the ten listed in `IsJsSpace` are not trimmed.
- FullStructure.ChapterRange: when `startChapter` is not a number (a string, `null`, a boolean), JavaScript still runs the loop, first with the raw value and then with numbers. The model then visits no chapter.
- FullStructure.NumberOf: a count that is a string, an array or an object makes `totalVerses += count` concatenate text. The model records the total as no number in that case.
