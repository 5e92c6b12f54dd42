/** The `useModularTorahData` hook of `src/hooks/useModularTorahData.ts`:
    the page's data state (`booksIndex`, `currentBookMetadata`,
    `currentChapter`, `currentVerseFile`, `currentVerse`, `commentators`,
    `lexicon`, `currentBookParashas`, `currentParasha`) and its loading
    state (`isLoading`, `error`, `progress`), updated step by step while it
    awaits the shared `ModularDataLoader`. The ghost log `progressLog`
    records every `setProgress`, in order. */
module DataHook {
  import opened Wrappers
  import opened Text
  import opened TorahTypes
  import opened Resolver
  import opened DataLoader

  /** `progress`, without its operation text. */
  datatype Progress = Progress(loaded: int, total: int)

  /** What `error` holds: the loader's failure, the missing parasha of
      `loadVerse`, or either of them under the "verse failed" prefix. */
  datatype HookError = Load(cause: LoadError) | ParashaNotFound(chapter: nat) | VerseFailed(inner: HookError)

  /** The `Verse` built from a verse file for older consumers; `russian`
      is the Hebrew words joined by spaces. */
  function VerseOfFile(f: VerseFile): (v: Verse)
    ensures v.number == f.verse && v.hebrew == f.hebrew && v.words == f.words
    ensures v.commentaries == f.commentaries
    ensures |f.hebrew| == 0 ==> v.russian == ""
    ensures v.russian == Join(f.hebrew, " ")
    ensures |f.hebrew| >= 1 ==> |v.russian| == SumLengths(f.hebrew) + |f.hebrew| - 1
    ensures |f.hebrew| >= 1 && (forall i :: 0 <= i < |f.hebrew| ==> ' ' !in f.hebrew[i]) ==>
      Split(v.russian, ' ') == f.hebrew
  {
    var russian := Join(f.hebrew, " ");
    assert |f.hebrew| >= 1 ==> |russian| == SumLengths(f.hebrew) + |f.hebrew| - 1 by {
      if |f.hebrew| >= 1 {
        JoinLength(f.hebrew, " ");
      }
    }
    assert |f.hebrew| >= 1 && (forall i :: 0 <= i < |f.hebrew| ==> ' ' !in f.hebrew[i]) ==>
      Split(russian, ' ') == f.hebrew by {
      if |f.hebrew| >= 1 && forall i :: 0 <= i < |f.hebrew| ==> ' ' !in f.hebrew[i] {
        SplitJoin(f.hebrew, ' ');
      }
    }
    Verse(f.verse, f.hebrew, russian, f.words, f.commentaries)
  }

  /** Whether `loadChapter` must load the book's metadata first: none is
      held, or it is another book's. */
  predicate Reloads(held: Option<BookMetadata>, book: string) {
    held.None? || held.value.book != book
  }

  /** How many of `initialize`'s three loads succeed before the first
      failure stops it. */
  function LoadsDone<A, B, C>(b: Result<A, LoadError>, c: Result<B, LoadError>, l: Result<C, LoadError>): nat {
    if b.Err? then 0 else if c.Err? then 1 else if l.Err? then 2 else 3
  }

  /** The error `initialize` reports: the first failed load's. */
  function FirstFailure<A, B, C>(b: Result<A, LoadError>, c: Result<B, LoadError>, l: Result<C, LoadError>): Option<HookError> {
    if b.Err? then Some(Load(b.error))
    else if c.Err? then Some(Load(c.error))
    else if l.Err? then Some(Load(l.error))
    else None
  }

  /** The progress log after `initialize` with `done` successful loads:
      0 of 3, then one more entry per load. */
  function InitLog(log: seq<Progress>, done: nat): seq<Progress> {
    if done == 0 then log + [Progress(0, 3)]
    else if done == 1 then log + [Progress(0, 3)] + [Progress(1, 3)]
    else if done == 2 then log + [Progress(0, 3)] + [Progress(1, 3)] + [Progress(2, 3)]
    else log + [Progress(0, 3)] + [Progress(1, 3)] + [Progress(2, 3)] + [Progress(3, 3)]
  }

  /** The progress log of `loadChapter` up to the chapter itself: 0 of 2,
      and 1 of 2 when the metadata was reloaded. */
  function ChapterLog(log: seq<Progress>, reloads: bool): seq<Progress> {
    if reloads then log + [Progress(0, 2)] + [Progress(1, 2)] else log + [Progress(0, 2)]
  }

  /** The parasha `loadVerse` reads from: the id given, else the first
      parasha of the chapter, else none. */
  function VerseParasha(parashas: seq<Parasha>, chapter: nat, given: Option<string>): (r: Option<string>)
    ensures given.Some? && given.value != "" ==> r == given
    ensures (given.None? || given.value == "") ==>
      r == (match ParashaByChapter(parashas, chapter, None) case Some(p) => Some(p.id) case None => None)
  {
    if given.Some? && given.value != "" then given
    else match ParashaByChapter(parashas, chapter, None)
      case Some(p) => Some(p.id)
      case None => None
  }

  class TorahDataHook {
    const loader: ModularDataLoader

    var booksIndex: Option<BooksIndex>
    var currentBookMetadata: Option<BookMetadata>
    var currentChapter: Option<ChapterFile>
    var currentVerseFile: Option<VerseFile>
    var currentVerse: Option<Verse>
    var commentators: Option<CommentatorsIndex>
    var lexicon: Option<HebrewLexicon>
    var currentBookParashas: seq<Parasha>
    var currentParasha: Option<Parasha>
    var isLoading: bool
    var error: Option<HookError>
    var progress: Progress
    ghost var progressLog: seq<Progress>

    /** The first render: nothing loaded, loading, progress 0 of 3. */
    constructor(loader: ModularDataLoader)
      ensures this.loader == loader
      ensures booksIndex.None? && currentBookMetadata.None? && currentChapter.None?
      ensures currentVerseFile.None? && currentVerse.None? && commentators.None? && lexicon.None?
      ensures currentBookParashas == [] && currentParasha.None?
      ensures isLoading && error.None? && progress == Progress(0, 3) && progressLog == []
    {
      this.loader := loader;
      booksIndex, currentBookMetadata, currentChapter := None, None, None;
      currentVerseFile, currentVerse, commentators, lexicon := None, None, None, None;
      currentBookParashas, currentParasha := [], None;
      isLoading, error, progress := true, None, Progress(0, 3);
      progressLog := [];
    }

    method SetProgress(p: Progress)
      modifies this`progress, this`progressLog
      ensures progress == p && progressLog == old(progressLog) + [p]
    {
      progress := p;
      progressLog := progressLog + [p];
    }

    /** One step of `initialize()`: await `loadBooksIndex()`, store it and
        advance the progress to 1 of 3, or report the failure. */
    method InitBooksIndex() returns (ok: bool)
      modifies this`booksIndex, this`error, this`progress, this`progressLog, loader
      ensures loader.cache.bookMetadata == old(loader.cache.bookMetadata)
      ensures loader.cache.chapters == old(loader.cache.chapters)
      ensures loader.CommentatorsNow() == old(loader.CommentatorsNow())
      ensures loader.LexiconNow() == old(loader.LexiconNow())
      ensures var b := old(loader.BooksIndexNow());
        && ok == b.Ok?
        && (b.Ok? ==> booksIndex == Some(b.value) && error == old(error) && progressLog == old(progressLog) + [Progress(1, 3)])
        && (b.Err? ==> booksIndex == old(booksIndex) && error == Some(Load(b.error)) && progressLog == old(progressLog))
    {
      var books := loader.LoadBooksIndex();
      if books.Err? {
        error := Some(Load(books.error));
        return false;
      }
      booksIndex := Some(books.value);
      SetProgress(Progress(1, 3));
      return true;
    }

    /** One step of `initialize()`: await `loadCommentators()`, store them
        and advance the progress to 2 of 3, or report the failure. */
    method InitCommentators() returns (ok: bool)
      modifies this`commentators, this`error, this`progress, this`progressLog, loader
      ensures loader.cache.bookMetadata == old(loader.cache.bookMetadata)
      ensures loader.cache.chapters == old(loader.cache.chapters)
      ensures loader.LexiconNow() == old(loader.LexiconNow())
      ensures var c := old(loader.CommentatorsNow());
        && ok == c.Ok?
        && (c.Ok? ==> commentators == Some(c.value) && error == old(error) && progressLog == old(progressLog) + [Progress(2, 3)])
        && (c.Err? ==> commentators == old(commentators) && error == Some(Load(c.error)) && progressLog == old(progressLog))
    {
      var commentatorsData := loader.LoadCommentators();
      if commentatorsData.Err? {
        error := Some(Load(commentatorsData.error));
        return false;
      }
      commentators := Some(commentatorsData.value);
      SetProgress(Progress(2, 3));
      return true;
    }

    /** One step of `initialize()`: await `loadHebrewLexicon()`, store it
        and advance the progress to 3 of 3, or report the failure. */
    method InitLexicon() returns (ok: bool)
      modifies this`lexicon, this`error, this`progress, this`progressLog, loader
      ensures loader.cache.bookMetadata == old(loader.cache.bookMetadata)
      ensures loader.cache.chapters == old(loader.cache.chapters)
      ensures var l := old(loader.LexiconNow());
        && ok == l.Ok?
        && (l.Ok? ==> lexicon == Some(l.value) && error == old(error) && progressLog == old(progressLog) + [Progress(3, 3)])
        && (l.Err? ==> lexicon == old(lexicon) && error == Some(Load(l.error)) && progressLog == old(progressLog))
    {
      var lexiconData := loader.LoadHebrewLexicon();
      if lexiconData.Err? {
        error := Some(Load(lexiconData.error));
        return false;
      }
      lexicon := Some(lexiconData.value);
      SetProgress(Progress(3, 3));
      return true;
    }

    /** `initialize()`: the books index, then the commentators, then the
        lexicon, advancing the progress 0, 1, 2, 3 of 3; the first failure
        stops the sequence and is the reported error. */
    method Initialize()
      modifies this`booksIndex, this`commentators, this`lexicon, this`isLoading, this`error,
               this`progress, this`progressLog, loader
      ensures !isLoading
      ensures loader.cache.bookMetadata == old(loader.cache.bookMetadata)
      ensures loader.cache.chapters == old(loader.cache.chapters)
      ensures var b := old(loader.BooksIndexNow());
        booksIndex == if b.Ok? then Some(b.value) else old(booksIndex)
      ensures var b, c := old(loader.BooksIndexNow()), old(loader.CommentatorsNow());
        commentators == if b.Ok? && c.Ok? then Some(c.value) else old(commentators)
      ensures var b, c, l := old(loader.BooksIndexNow()), old(loader.CommentatorsNow()), old(loader.LexiconNow());
        lexicon == if b.Ok? && c.Ok? && l.Ok? then Some(l.value) else old(lexicon)
      ensures error == FirstFailure(old(loader.BooksIndexNow()), old(loader.CommentatorsNow()), old(loader.LexiconNow()))
      ensures progressLog ==
        InitLog(old(progressLog), LoadsDone(old(loader.BooksIndexNow()), old(loader.CommentatorsNow()), old(loader.LexiconNow())))
    {
      isLoading := true;
      error := None;
      SetProgress(Progress(0, 3));
      var ok := InitBooksIndex();
      if ok {
        ok := InitCommentators();
        if ok {
          ok := InitLexicon();
        }
      }
      isLoading := false;
    }

    /** `loadBook(bookId)`: the book's metadata, progress 0 then 1 of 1. */
    method LoadBook(book: string)
      modifies this`currentBookMetadata, this`isLoading, this`error, this`progress, this`progressLog, loader
      ensures !isLoading
      ensures old(loader.MetadataNow(book)).Ok? ==>
        && currentBookMetadata == Some(old(loader.MetadataNow(book)).value) && error.None?
        && progressLog == old(progressLog) + [Progress(0, 1)] + [Progress(1, 1)]
      ensures old(loader.MetadataNow(book)).Err? ==>
        && currentBookMetadata == old(currentBookMetadata)
        && error == Some(Load(old(loader.MetadataNow(book)).error))
        && progressLog == old(progressLog) + [Progress(0, 1)]
    {
      isLoading := true;
      error := None;
      SetProgress(Progress(0, 1));
      var metadata := loader.LoadBookMetadata(book);
      if metadata.Err? {
        error := Some(Load(metadata.error));
        isLoading := false;
        return;
      }
      currentBookMetadata := Some(metadata.value);
      SetProgress(Progress(1, 1));
      isLoading := false;
    }

    /** The first step of `loadChapter`: when no metadata is held or it
        is another book's, await `loadBookMetadata`, store it and advance
        the progress to 1 of 2, or report the failure. */
    method ChapterMetadataStep(book: string, chapter: nat, parasha: Option<string>) returns (ok: bool)
      modifies this`currentBookMetadata, this`error, this`progress, this`progressLog, loader
      ensures loader.ChapterNow(book, chapter, parasha) == old(loader.ChapterNow(book, chapter, parasha))
      ensures var m, reload := old(loader.MetadataNow(book)), Reloads(old(currentBookMetadata), book);
        && ok == !(reload && m.Err?)
        && (!reload ==>
              currentBookMetadata == old(currentBookMetadata) && error == old(error) && progressLog == old(progressLog))
        && (reload && m.Ok? ==>
              currentBookMetadata == Some(m.value) && error == old(error) && progressLog == old(progressLog) + [Progress(1, 2)])
        && (reload && m.Err? ==>
              currentBookMetadata == old(currentBookMetadata) && error == Some(Load(m.error)) && progressLog == old(progressLog))
    {
      if !Reloads(currentBookMetadata, book) {
        return true;
      }
      var metadata := loader.LoadBookMetadata(book);
      if metadata.Err? {
        error := Some(Load(metadata.error));
        return false;
      }
      currentBookMetadata := Some(metadata.value);
      SetProgress(Progress(1, 2));
      return true;
    }

    /** The second step of `loadChapter`: await the loader's
        `loadChapter`, show the chapter, clear the verse and advance the
        progress to 2 of 2, or report the failure. */
    method ChapterStep(book: string, chapter: nat, parasha: Option<string>)
      modifies this`currentChapter, this`currentVerse, this`error, this`progress, this`progressLog, loader
      ensures var ch := old(loader.ChapterNow(book, chapter, parasha));
        && (ch.Ok? ==>
              && currentChapter == Some(ch.value) && currentVerse.None? && error == old(error)
              && progressLog == old(progressLog) + [Progress(2, 2)])
        && (ch.Err? ==>
              && currentChapter == old(currentChapter) && currentVerse == old(currentVerse)
              && error == Some(Load(ch.error)) && progressLog == old(progressLog))
    {
      var chapterData := loader.LoadChapter(book, chapter, parasha);
      if chapterData.Err? {
        error := Some(Load(chapterData.error));
        return;
      }
      currentChapter := Some(chapterData.value);
      currentVerse := None;
      SetProgress(Progress(2, 2));
    }

    /** The first step of `loadVerse`: the parasha id given, else the
        first parasha of the chapter (awaiting `getParashaByChapter`),
        advancing the progress to 1 of 2; none is reported as an error. */
    method VerseParashaStep(book: string, chapter: nat, verse: nat, parashaId: Option<string>)
      returns (actual: Option<string>)
      modifies this`error, this`progress, this`progressLog, loader
      ensures loader.ParashaTableNow() == old(loader.ParashaTableNow())
      ensures actual == VerseParasha(old(loader.BookParashas(book)), chapter, parashaId)
      ensures actual.Some? ==>
        && loader.VerseNow(book, actual.value, chapter, verse) == old(loader.VerseNow(book, actual.value, chapter, verse))
        && error == old(error) && progressLog == old(progressLog) + [Progress(1, 2)]
      ensures actual.None? ==>
        error == Some(VerseFailed(ParashaNotFound(chapter))) && progressLog == old(progressLog)
    {
      if parashaId.Some? && parashaId.value != "" {
        actual := parashaId;
      } else {
        var parasha := loader.GetParashaByChapter(book, chapter, None);
        if parasha.None? {
          error := Some(VerseFailed(ParashaNotFound(chapter)));
          return None;
        }
        actual := Some(parasha.value.id);
      }
      SetProgress(Progress(1, 2));
    }

    /** The second step of `loadVerse`: await `loadVerseFile`, keep the
        file, and the verse too when it has words, advancing the progress
        to 2 of 2; a failure is reported under the verse prefix. */
    method VerseFileStep(book: string, parasha: string, chapter: nat, verse: nat,
                         ghost r: Result<VerseFile, LoadError>)
      requires r == loader.VerseNow(book, parasha, chapter, verse)
      modifies this`currentVerseFile, this`currentVerse, this`error, this`progress, this`progressLog, loader
      ensures loader.ParashaTableNow() == old(loader.ParashaTableNow())
      ensures
        && (r.Err? ==>
              && currentVerseFile == old(currentVerseFile) && currentVerse == old(currentVerse)
              && error == Some(VerseFailed(Load(r.error))) && progressLog == old(progressLog))
        && (r.Ok? ==>
              && currentVerseFile == Some(r.value)
              && currentVerse == (if |r.value.words| > 0 then Some(VerseOfFile(r.value)) else old(currentVerse))
              && error == old(error) && progressLog == old(progressLog) + [Progress(2, 2)])
    {
      var verseFile := loader.LoadVerseFile(book, parasha, chapter, verse);
      if verseFile.Err? {
        error := Some(VerseFailed(Load(verseFile.error)));
        return;
      }
      currentVerseFile := Some(verseFile.value);
      if |verseFile.value.words| > 0 {
        currentVerse := Some(VerseOfFile(verseFile.value));
      }
      SetProgress(Progress(2, 2));
    }

    /** `loadChapter(bookId, chapter, parashaId?)`: the book metadata is
        reloaded only when none is held or it is another book's; a loaded
        chapter clears the current verse. */
    method LoadChapter(book: string, chapter: nat, parasha: Option<string>)
      modifies this`currentBookMetadata, this`currentChapter, this`currentVerse, this`isLoading,
               this`error, this`progress, this`progressLog, loader
      ensures !isLoading
      ensures Reloads(old(currentBookMetadata), book) && old(loader.MetadataNow(book)).Err? ==>
        && currentBookMetadata == old(currentBookMetadata) && currentChapter == old(currentChapter)
        && currentVerse == old(currentVerse) && error == Some(Load(old(loader.MetadataNow(book)).error))
        && progressLog == old(progressLog) + [Progress(0, 2)]
      ensures !(Reloads(old(currentBookMetadata), book) && old(loader.MetadataNow(book)).Err?) ==>
        currentBookMetadata == if Reloads(old(currentBookMetadata), book)
                               then Some(old(loader.MetadataNow(book)).value) else old(currentBookMetadata)
      ensures !(Reloads(old(currentBookMetadata), book) && old(loader.MetadataNow(book)).Err?)
              && old(loader.ChapterNow(book, chapter, parasha)).Err? ==>
        && currentChapter == old(currentChapter) && currentVerse == old(currentVerse)
        && error == Some(Load(old(loader.ChapterNow(book, chapter, parasha)).error))
        && progressLog == ChapterLog(old(progressLog), Reloads(old(currentBookMetadata), book))
      ensures !(Reloads(old(currentBookMetadata), book) && old(loader.MetadataNow(book)).Err?)
              && old(loader.ChapterNow(book, chapter, parasha)).Ok? ==>
        currentChapter == Some(old(loader.ChapterNow(book, chapter, parasha)).value)
      ensures !(Reloads(old(currentBookMetadata), book) && old(loader.MetadataNow(book)).Err?)
              && old(loader.ChapterNow(book, chapter, parasha)).Ok? ==>
        currentVerse.None? && error.None?
      ensures !(Reloads(old(currentBookMetadata), book) && old(loader.MetadataNow(book)).Err?)
              && old(loader.ChapterNow(book, chapter, parasha)).Ok? ==>
        progressLog == ChapterLog(old(progressLog), Reloads(old(currentBookMetadata), book)) + [Progress(2, 2)]
    {
      isLoading := true;
      error := None;
      SetProgress(Progress(0, 2));
      var ok := ChapterMetadataStep(book, chapter, parasha);
      if ok {
        ChapterStep(book, chapter, parasha);
      }
      isLoading := false;
    }

    /** `loadVerse(bookId, chapter, verse, parashaId?)`: without a parasha
        id the chapter's first parasha is used (no verse disambiguation),
        and a chapter without one is an error; the verse file then becomes
        `currentVerseFile`, and `currentVerse` too when it has words. */
    method LoadVerse(book: string, chapter: nat, verse: nat, parashaId: Option<string>)
      modifies this`currentVerseFile, this`currentVerse, this`isLoading, this`error,
               this`progress, this`progressLog, loader
      ensures !isLoading
      ensures loader.ParashaTableNow() == old(loader.ParashaTableNow())
      ensures var actual := VerseParasha(old(loader.BookParashas(book)), chapter, parashaId);
        actual.None? ==>
          && currentVerseFile == old(currentVerseFile) && currentVerse == old(currentVerse)
          && error == Some(VerseFailed(ParashaNotFound(chapter)))
          && progressLog == old(progressLog) + [Progress(0, 2)]
      ensures var actual := VerseParasha(old(loader.BookParashas(book)), chapter, parashaId);
        actual.Some? ==>
          var r := old(loader.VerseNow(book, actual.value, chapter, verse));
          && (r.Err? ==>
                && currentVerseFile == old(currentVerseFile) && currentVerse == old(currentVerse)
                && error == Some(VerseFailed(Load(r.error)))
                && progressLog == old(progressLog) + [Progress(0, 2)] + [Progress(1, 2)])
          && (r.Ok? ==>
                && currentVerseFile == Some(r.value)
                && currentVerse == (if |r.value.words| > 0 then Some(VerseOfFile(r.value)) else old(currentVerse))
                && error.None?
                && progressLog == old(progressLog) + [Progress(0, 2)] + [Progress(1, 2)] + [Progress(2, 2)])
    {
      isLoading := true;
      error := None;
      SetProgress(Progress(0, 2));
      var actual := VerseParashaStep(book, chapter, verse, parashaId);
      if actual.Some? {
        VerseFileStep(book, actual.value, chapter, verse, old(loader.VerseNow(book, actual.value, chapter, verse)));
      }
      isLoading := false;
    }

    /** `navigateToVerse(...)`: load the verse, then, only when no parasha
        id was supplied, take the parasha the resolver picks for this very
        verse as `currentParasha`. */
    method NavigateToVerse(book: string, chapter: nat, verse: nat, parashaId: Option<string>)
      modifies this`currentVerseFile, this`currentVerse, this`currentParasha, this`isLoading, this`error,
               this`progress, this`progressLog, loader
      ensures !isLoading
      ensures parashaId.None? || parashaId.value == "" ==>
        currentParasha == ParashaByChapter(old(loader.BookParashas(book)), chapter, Some(verse))
      ensures parashaId.Some? && parashaId.value != "" ==> currentParasha == old(currentParasha)
      ensures var actual := VerseParasha(old(loader.BookParashas(book)), chapter, parashaId);
        actual.None? ==>
          && currentVerseFile == old(currentVerseFile) && currentVerse == old(currentVerse)
          && error == Some(VerseFailed(ParashaNotFound(chapter)))
      ensures var actual := VerseParasha(old(loader.BookParashas(book)), chapter, parashaId);
        actual.Some? ==>
          var r := old(loader.VerseNow(book, actual.value, chapter, verse));
          && (r.Err? ==>
                && currentVerseFile == old(currentVerseFile) && currentVerse == old(currentVerse)
                && error == Some(VerseFailed(Load(r.error))))
          && (r.Ok? ==>
                && currentVerseFile == Some(r.value)
                && currentVerse == (if |r.value.words| > 0 then Some(VerseOfFile(r.value)) else old(currentVerse))
                && error.None?)
    {
      LoadVerse(book, chapter, verse, parashaId);
      if parashaId.None? || parashaId.value == "" {
        var parasha := loader.GetParashaByChapter(book, chapter, Some(verse));
        currentParasha := parasha;
      }
    }

    /** `getBookParashas(bookId)`: also kept as `currentBookParashas`. */
    method GetBookParashas(book: string) returns (r: seq<Parasha>)
      modifies this`currentBookParashas, loader
      ensures r == old(loader.BookParashas(book)) && currentBookParashas == r
    {
      r := loader.GetBookParashas(book);
      currentBookParashas := r;
    }

    /** `clearCache()`: empty the loader's cache, forget everything loaded
        except the verse file, and initialise again; the books index then
        comes from the server, not from the cache. */
    method ClearCache()
      modifies this`booksIndex, this`currentBookMetadata, this`currentChapter, this`currentVerse,
               this`commentators, this`lexicon, this`currentBookParashas, this`currentParasha,
               this`isLoading, this`error, this`progress, this`progressLog, loader
      ensures currentVerseFile == old(currentVerseFile)
      ensures currentBookMetadata.None? && currentChapter.None? && currentVerse.None?
      ensures currentBookParashas == [] && currentParasha.None? && !isLoading
      ensures loader.cache.bookMetadata == map[] && loader.cache.chapters == map[]
      ensures match BooksIndexOf(BooksIndexPath, loader.Answer(BooksIndexPath))
        case Ok(b) => booksIndex == Some(b)
        case Err(e) => booksIndex.None? && error == Some(Load(e))
      ensures var b, c, l := BooksIndexOf(BooksIndexPath, loader.Answer(BooksIndexPath)),
          CommentatorsOf(CommentatorsPath, loader.Answer(CommentatorsPath)), loader.LexiconFetched();
        && commentators == (if b.Ok? && c.Ok? then Some(c.value) else None)
        && lexicon == (if b.Ok? && c.Ok? && l.Ok? then Some(l.value) else None)
        && error == FirstFailure(b, c, l)
        && progressLog == InitLog(old(progressLog), LoadsDone(b, c, l))
    {
      loader.ClearCache();
      booksIndex := None;
      currentBookMetadata := None;
      currentChapter := None;
      currentVerse := None;
      commentators := None;
      lexicon := None;
      currentBookParashas := [];
      currentParasha := None;
      ghost var b := loader.BooksIndexNow();
      assert b == BooksIndexOf(BooksIndexPath, loader.Answer(BooksIndexPath));
      Initialize();
      assert b.Err? ==> error == Some(Load(b.error));
    }
  }
}
