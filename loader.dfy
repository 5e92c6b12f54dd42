/** `ModularDataLoader` of `src/utils/modularDataLoader.ts`: memoising
    loaders over the JSON data tree, backed by an in-memory cache that is
    mirrored into one `localStorage` entry.

    The network is the constant map `server` from path to response (a path
    it lacks answers 404), `localStorage[CACHE_KEY]` is the field `stored`,
    and `new Date()` is the field `clock` (milliseconds). The ghost log
    `fetched` records every path requested, in order. */
module DataLoader {
  import opened Wrappers
  import opened Text
  import opened Ranges
  import opened TorahTypes
  import opened Resolver

  /** What `response.json()` can yield, by the kind of file requested. */
  datatype Payload =
    | BooksIndexJson(booksIndex: BooksIndex)
    | BookMetadataJson(metadata: BookMetadata)
    | ChapterJson(chapter: ChapterFile)
    | VerseJson(verse: VerseFile)
    | CommentatorsJson(commentators: CommentatorsIndex)
    | ParashasJson(parashas: ParashaTable)
    | LexiconJson(lexicon: HebrewLexicon)
    | StructureJson(structure: TorahStructure)

  /** An HTTP response; `body` is `None` when it is not JSON of the
      expected shape, so that `response.json()` fails. */
  datatype Response = Response(status: int, body: Option<Payload>) {
    predicate Ok() {
      200 <= status <= 299
    }
  }

  /** The errors the loaders throw. */
  datatype LoadError = HttpStatus(path: string, status: int) | BadJson(path: string)

  const CacheKey := "torah_modular_cache"
  const CacheVersion := "1.0.0"
  const BooksIndexPath := "/data/metadata/books.json"
  const CommentatorsPath := "/data/metadata/commentators.json"
  const ParashasPath := "/data/metadata/parashas.json"
  const LexiconPath := "/data/metadata/hebrew-lexicon.json"
  const LegacyLexiconPath := "/data/hebrew-lexicon.json"
  const StructurePath := "/data/metadata/torah-structure.json"
  /** One day in milliseconds. */
  const CacheLifetime := 24 * 60 * 60 * 1000

  function BookMetadataPath(book: string): string {
    "/data/" + book + "/metadata.json"
  }

  function ParashaChapterPath(book: string, parasha: string, chapter: nat): string {
    "/data/" + book + "/" + parasha + "/chapter-" + Pad3(chapter) + ".json"
  }

  function LegacyChapterPath(book: string, chapter: nat): string {
    "/data/" + book + "/chapter-" + Pad3(chapter) + ".json"
  }

  function VerseFileName(parasha: string, chapter: nat, verse: nat): string {
    parasha + "-" + Pad3(chapter) + "-" + Pad3(verse) + ".json"
  }

  function VersePath(book: string, parasha: string, chapter: nat, verse: nat): string {
    "/data/" + book + "/" + parasha + "/" + VerseFileName(parasha, chapter, verse)
  }

  /** `parashaId || 'default'`. */
  function ParashaOrDefault(parasha: Option<string>): string {
    if parasha.Some? && parasha.value != "" then parasha.value else "default"
  }

  function ChapterKey(book: string, parasha: Option<string>, chapter: nat): string {
    book + "-" + ParashaOrDefault(parasha) + "-" + Pad3(chapter)
  }

  function VerseKey(book: string, parasha: string, chapter: nat, verse: nat): string {
    book + "-" + parasha + "-" + Pad3(chapter) + "-" + Pad3(verse)
  }

  /** Two digit strings joined by '-' determine both parts. */
  lemma SplitAtDash(a1: string, b1: string, a2: string, b2: string)
    requires IsDigits(a1) && IsDigits(b1) && IsDigits(a2) && IsDigits(b2)
    requires a1 + "-" + b1 == a2 + "-" + b2
    ensures a1 == a2 && b1 == b2
  {
    var s := a1 + "-" + b1;
    assert s == a2 + "-" + b2;
    assert s[|a1|] == '-' && s[|a2|] == '-';
    assert forall i :: 0 <= i < |a1| ==> IsDigit(s[i]);
    assert forall i :: 0 <= i < |a2| ==> IsDigit(s[i]);
    assert |a1| == |a2|;
    assert a1 == s[..|a1|] == a2;
    assert b1 == s[|a1| + 1..] == b2;
  }

  /** Different verses of a parasha never share a cache entry. */
  lemma VerseKeyInjective(book: string, parasha: string, c1: nat, v1: nat, c2: nat, v2: nat)
    requires VerseKey(book, parasha, c1, v1) == VerseKey(book, parasha, c2, v2)
    ensures c1 == c2 && v1 == v2
  {
    var prefix := book + "-" + parasha + "-";
    var k1, k2 := VerseKey(book, parasha, c1, v1), VerseKey(book, parasha, c2, v2);
    assert k1 == prefix + (Pad3(c1) + "-" + Pad3(v1));
    assert k2 == prefix + (Pad3(c2) + "-" + Pad3(v2));
    assert k1[|prefix|..] == Pad3(c1) + "-" + Pad3(v1);
    ParsePad3(c1);
    ParsePad3(v1);
    ParsePad3(c2);
    ParsePad3(v2);
    SplitAtDash(Pad3(c1), Pad3(v1), Pad3(c2), Pad3(v2));
    Pad3Injective(c1, c2);
    Pad3Injective(v1, v2);
  }

  /** Different chapters under the same parasha never share a cache entry. */
  lemma ChapterKeyInjective(book: string, parasha: Option<string>, c1: nat, c2: nat)
    requires ChapterKey(book, parasha, c1) == ChapterKey(book, parasha, c2)
    ensures c1 == c2
  {
    var prefix := book + "-" + ParashaOrDefault(parasha) + "-";
    assert ChapterKey(book, parasha, c1)[|prefix|..] == Pad3(c1);
    assert ChapterKey(book, parasha, c2)[|prefix|..] == Pad3(c2);
    Pad3Injective(c1, c2);
  }

  /** The `ModularDataCache` record. `parashas` is never `undefined` in the
      code (every assignment gives it an object), so it is a plain map;
      `verses` is dropped by `clearCache` and so is optional. */
  datatype CacheData = CacheData(
    booksIndex: Option<BooksIndex>,
    bookMetadata: map<string, BookMetadata>,
    chapters: map<string, ChapterFile>,
    verses: Option<map<string, VerseFile>>,
    commentators: Option<CommentatorsIndex>,
    lexicon: Option<HebrewLexicon>,
    parashas: ParashaTable,
    lastCacheUpdate: int)

  /** The cache a new loader starts from. */
  function InitialCache(now: int): CacheData {
    CacheData(None, map[], map[], Some(map[]), None, None, map[], now)
  }

  /** What `clearCache` leaves: no verses, no indexes, no lexicon. */
  function ClearedCache(now: int): CacheData {
    CacheData(None, map[], map[], None, None, None, map[], now)
  }

  /** The persisted entry: `JSON.stringify({...cache, version,
      lastCacheUpdate})`, or text that does not parse. A field the writer
      left `undefined` is absent. */
  datatype Persisted =
    | Unparseable
    | Saved(version: string,
            booksIndex: Option<BooksIndex>,
            bookMetadata: Option<map<string, BookMetadata>>,
            chapters: Option<map<string, ChapterFile>>,
            verses: Option<map<string, VerseFile>>,
            commentators: Option<CommentatorsIndex>,
            lexicon: Option<HebrewLexicon>,
            parashas: Option<ParashaTable>,
            lastCacheUpdate: Option<int>)

  /** What `saveCache` writes at time `now`. */
  function Snapshot(c: CacheData, now: int): Persisted {
    Saved(CacheVersion, c.booksIndex, Some(c.bookMetadata), Some(c.chapters), c.verses,
          c.commentators, c.lexicon, Some(c.parashas), Some(now))
  }

  /** `loadCache`: adopt a persisted entry of the current version (missing
      maps become empty), keep the current cache for another version or no
      entry, and reset it when the entry does not parse. */
  function Restore(p: Option<Persisted>, current: CacheData, now: int): (c: CacheData)
    ensures p.Some? && p.value.Saved? && p.value.version != CacheVersion ==> c == current
    ensures p == Some(Unparseable) ==> c == InitialCache(now)
  {
    match p
    case None => current
    case Some(Unparseable) => InitialCache(now)
    case Some(Saved(version, bi, bm, ch, vs, cm, lx, ps, last)) =>
      if version == CacheVersion then
        CacheData(bi, bm.GetOr(map[]), ch.GetOr(map[]), Some(vs.GetOr(map[])), cm, lx,
                  ps.GetOr(map[]), last.GetOr(now))
      else current
  }

  /** Saving then loading gives back the cache, stamped with the save time
      and with an empty verse table in place of a dropped one. */
  lemma RestoreSnapshot(c: CacheData, saved: int, current: CacheData, now: int)
    ensures Restore(Some(Snapshot(c, saved)), current, now)
            == c.(verses := Some(c.verses.GetOr(map[])), lastCacheUpdate := saved)
  {
  }

  function BooksIndexOf(path: string, r: Response): (x: Result<BooksIndex, LoadError>)
    ensures x.Ok? <==> r.Ok() && r.body.Some? && r.body.value.BooksIndexJson?
  {
    if !r.Ok() then Err(HttpStatus(path, r.status))
    else if r.body.Some? && r.body.value.BooksIndexJson? then Ok(r.body.value.booksIndex)
    else Err(BadJson(path))
  }

  function BookMetadataOf(path: string, r: Response): (x: Result<BookMetadata, LoadError>)
    ensures x.Ok? <==> r.Ok() && r.body.Some? && r.body.value.BookMetadataJson?
  {
    if !r.Ok() then Err(HttpStatus(path, r.status))
    else if r.body.Some? && r.body.value.BookMetadataJson? then Ok(r.body.value.metadata)
    else Err(BadJson(path))
  }

  function ChapterOf(path: string, r: Response): (x: Result<ChapterFile, LoadError>)
    ensures x.Ok? <==> r.Ok() && r.body.Some? && r.body.value.ChapterJson?
  {
    if !r.Ok() then Err(HttpStatus(path, r.status))
    else if r.body.Some? && r.body.value.ChapterJson? then Ok(r.body.value.chapter)
    else Err(BadJson(path))
  }

  function VerseOf(path: string, r: Response): (x: Result<VerseFile, LoadError>)
    ensures x.Ok? <==> r.Ok() && r.body.Some? && r.body.value.VerseJson?
  {
    if !r.Ok() then Err(HttpStatus(path, r.status))
    else if r.body.Some? && r.body.value.VerseJson? then Ok(r.body.value.verse)
    else Err(BadJson(path))
  }

  function CommentatorsOf(path: string, r: Response): (x: Result<CommentatorsIndex, LoadError>)
    ensures x.Ok? <==> r.Ok() && r.body.Some? && r.body.value.CommentatorsJson?
  {
    if !r.Ok() then Err(HttpStatus(path, r.status))
    else if r.body.Some? && r.body.value.CommentatorsJson? then Ok(r.body.value.commentators)
    else Err(BadJson(path))
  }

  function ParashasOf(path: string, r: Response): (x: Result<ParashaTable, LoadError>)
    ensures x.Ok? <==> r.Ok() && r.body.Some? && r.body.value.ParashasJson?
  {
    if !r.Ok() then Err(HttpStatus(path, r.status))
    else if r.body.Some? && r.body.value.ParashasJson? then Ok(r.body.value.parashas)
    else Err(BadJson(path))
  }

  function LexiconOf(path: string, r: Response): (x: Result<HebrewLexicon, LoadError>)
    ensures x.Ok? <==> r.Ok() && r.body.Some? && r.body.value.LexiconJson?
  {
    if !r.Ok() then Err(HttpStatus(path, r.status))
    else if r.body.Some? && r.body.value.LexiconJson? then Ok(r.body.value.lexicon)
    else Err(BadJson(path))
  }

  function StructureOf(r: Response): (x: Option<TorahStructure>)
    ensures x.Some? <==> r.Ok() && r.body.Some? && r.body.value.StructureJson?
  {
    if r.Ok() && r.body.Some? && r.body.value.StructureJson? then Some(r.body.value.structure) else None
  }

  /** `chapters` filtered by membership in `available`, order kept. */
  function ChaptersIn(chapters: seq<int>, available: seq<int>): (r: seq<int>)
    ensures forall x :: x in r <==> x in chapters && x in available
    ensures |r| <= |chapters|
  {
    if chapters == [] then []
    else if chapters[0] in available then [chapters[0]] + ChaptersIn(chapters[1..], available)
    else ChaptersIn(chapters[1..], available)
  }

  lemma {:induction false} ChaptersInAppend(a: seq<int>, x: int, available: seq<int>)
    ensures ChaptersIn(a + [x], available)
            == ChaptersIn(a, available) + (if x in available then [x] else [])
  {
    if a != [] {
      assert (a + [x])[1..] == a[1..] + [x];
      ChaptersInAppend(a[1..], x, available);
    } else {
      assert a + [x] == [x];
    }
  }

  /** Each element is smaller than every later one. */
  predicate Ascending(s: seq<int>) {
    forall j, k :: 0 <= j < k < |s| ==> s[j] < s[k]
  }

  /** The filter keeps order: ascending chapters stay ascending. */
  lemma {:induction false} ChaptersInAscending(chapters: seq<int>, available: seq<int>)
    requires Ascending(chapters)
    ensures Ascending(ChaptersIn(chapters, available))
  {
    if chapters != [] {
      var tail := chapters[1..];
      ChaptersInAscending(tail, available);
      var rest := ChaptersIn(tail, available);
      forall x | x in rest ensures chapters[0] < x {
        var k :| 0 <= k < |tail| && tail[k] == x;
        assert chapters[k + 1] == x;
      }
      if chapters[0] in available {
        var r := [chapters[0]] + rest;
        assert ChaptersIn(chapters, available) == r;
        forall j, k | 0 <= j < k < |r| ensures r[j] < r[k] {
          assert r[k] == rest[k - 1];
          if j > 0 {
            assert r[j] == rest[j - 1];
          } else {
            assert rest[k - 1] in rest;
          }
        }
      }
    }
  }

  /** The loop of `getChaptersForParasha`: every chapter from `lo` to
      `hi` that `available` lists, ascending. */
  method AvailableInRange(lo: int, hi: int, available: seq<int>) returns (r: seq<int>)
    ensures r == ChaptersIn(Consecutive(lo, hi), available)
    ensures Ascending(r)
  {
    r := [];
    var i := lo;
    while i <= hi
      invariant lo <= i <= if lo <= hi then hi + 1 else lo
      invariant r == ChaptersIn(Consecutive(lo, i - 1), available)
      decreases hi - i
    {
      ChaptersInAppend(Consecutive(lo, i - 1), i, available);
      if i in available {
        r := r + [i];
      }
      i := i + 1;
    }
    ChaptersInAscending(Consecutive(lo, hi), available);
  }

  class ModularDataLoader {
    var cache: CacheData
    /** `localStorage.getItem(CACHE_KEY)`. */
    var stored: Option<Persisted>
    /** `new Date()`, in milliseconds. */
    var clock: int
    /** What `fetch` answers for each path. */
    const server: map<string, Response>
    ghost var fetched: seq<string>

    /** `fetch(path)` as the server answers it. */
    function Answer(path: string): Response {
      if path in server then server[path] else Response(404, None)
    }

    /** The parasha table `loadParashas` yields from the current state: the
        cached one when it has a key, else the server's (empty on failure). */
    function ParashaTableNow(): ParashaTable
      reads this
    {
      TableFrom(cache.parashas)
    }

    /** The parasha table `loadParashas` yields with `cached` in the cache:
        the cached table, else the fetched one, else none. */
    function TableFrom(cached: ParashaTable): ParashaTable {
      if |cached| > 0 then cached
      else match ParashasOf(ParashasPath, Answer(ParashasPath))
        case Ok(t) => t
        case Err(_) => map[]
    }

    /** `getBookParashas(bookId)` from the current state. */
    function BookParashas(book: string): seq<Parasha>
      reads this
    {
      var t := ParashaTableNow();
      if book in t then t[book] else []
    }

    /** The cache after `loadParashas` from cache `c`. */
    function WithParashas(c: CacheData): CacheData {
      if |c.parashas| > 0 then c
      else match ParashasOf(ParashasPath, Answer(ParashasPath))
        case Ok(t) => c.(parashas := t)
        case Err(_) => c
    }

    /** Whether `loadParashas` from cache `c` stores a fetched table. */
    predicate SavesParashas(c: CacheData) {
      |c.parashas| == 0 && ParashasOf(ParashasPath, Answer(ParashasPath)).Ok?
    }

    /** The fetches `loadParashas` makes from cache `c`. */
    function ParashaFetches(c: CacheData): seq<string> {
      if |c.parashas| > 0 then [] else [ParashasPath]
    }

    lemma WithParashasIdempotent(c: CacheData)
      ensures WithParashas(WithParashas(c)) == WithParashas(c)
    {
      if |c.parashas| == 0 {
        match ParashasOf(ParashasPath, Answer(ParashasPath))
        case Ok(t) =>
          if |t| == 0 {
            assert t == map[];
          }
        case Err(_) =>
      }
    }

    /** The parasha a verse load ends up reading from: the resolver's
        choice when there is one, else the parasha asked for. */
    function TargetParasha(book: string, parasha: string, chapter: nat, verse: nat): string
      reads this
    {
      TargetIn(ParashaTableNow(), book, parasha, chapter, verse)
    }

    /** The parasha a verse load reads from with `table` as the parasha
        table. */
    function TargetIn(table: ParashaTable, book: string, parasha: string, chapter: nat, verse: nat): string {
      match ParashaByChapter(if book in table then table[book] else [], chapter, Some(verse))
      case Some(p) => p.id
      case None => parasha
    }

    /** `getTorahStructure()`, `None` when it throws. */
    function StructureNow(): Option<TorahStructure> {
      StructureOf(Answer(StructurePath))
    }

    /** How many times `getParashaVerseRange` fetches the Torah structure:
        once for a chapter inside the parasha's range that is not both its
        first and its last, and a second time when the first chapter's
        count is missing from a structure that loaded. */
    function RangeStructureFetches(ps: seq<Parasha>, book: string, chapter: nat, id: string): nat {
      match FindById(ps, id)
      case None => 0
      case Some(p) =>
        if chapter < p.startChapter || chapter > p.endChapter then 0
        else if chapter == p.startChapter && chapter == p.endChapter then 0
        else if chapter == p.startChapter then
          if StructureNow().Some? && ChapterCount(StructureNow().value, book, chapter).None? then 2 else 1
        else if chapter == p.endChapter then 0
        else 1
    }

    /** `loadBookMetadata(bookId)` from the current state. */
    function MetadataNow(book: string): Result<BookMetadata, LoadError>
      reads this
    {
      if book in cache.bookMetadata then Ok(cache.bookMetadata[book])
      else BookMetadataOf(BookMetadataPath(book), Answer(BookMetadataPath(book)))
    }

    /** The cache after `loadBookMetadata(book)` from cache `c`. */
    function WithMetadata(c: CacheData, book: string): CacheData {
      if book in c.bookMetadata then c
      else match BookMetadataOf(BookMetadataPath(book), Answer(BookMetadataPath(book)))
        case Ok(m) => c.(bookMetadata := c.bookMetadata[book := m])
        case Err(_) => c
    }

    /** Whether `loadBookMetadata(book)` from cache `c` stores fetched
        metadata. */
    predicate SavesMetadata(c: CacheData, book: string) {
      book !in c.bookMetadata && BookMetadataOf(BookMetadataPath(book), Answer(BookMetadataPath(book))).Ok?
    }

    /** The fetches `loadBookMetadata(book)` makes from cache `c`. */
    function MetadataFetches(c: CacheData, book: string): seq<string> {
      if book in c.bookMetadata then [] else [BookMetadataPath(book)]
    }

    /** `getAvailableChapters(bookId)` from the current state. */
    function AvailableChaptersNow(book: string): seq<int>
      reads this
    {
      match MetadataNow(book)
      case Ok(m) => m.availableChapters.GetOr([])
      case Err(_) => []
    }

    /** `loadHebrewLexicon()` from the current state: the metadata path,
        else the legacy path; the error reports the first status. */
    function LexiconNow(): Result<HebrewLexicon, LoadError>
      reads this
    {
      if cache.lexicon.Some? then Ok(cache.lexicon.value) else LexiconFetched()
    }

    /** The lexicon read from the server: the metadata path, else the
        legacy path; the error reports the first status. */
    function LexiconFetched(): Result<HebrewLexicon, LoadError> {
      var first := Answer(LexiconPath);
      if first.Ok() then LexiconOf(LexiconPath, first)
      else
        var second := Answer(LegacyLexiconPath);
        if second.Ok() then LexiconOf(LegacyLexiconPath, second)
        else Err(HttpStatus(LexiconPath, first.status))
    }

    /** The cache after `loadHebrewLexicon` from cache `c`. */
    function WithLexicon(c: CacheData): CacheData {
      if c.lexicon.Some? then c
      else match LexiconFetched()
        case Ok(l) => c.(lexicon := Some(l))
        case Err(_) => c
    }

    /** Whether `loadHebrewLexicon` from cache `c` stores a fetched lexicon. */
    predicate SavesLexicon(c: CacheData) {
      c.lexicon.None? && LexiconFetched().Ok?
    }

    /** The fetches `loadHebrewLexicon` makes from cache `c`. */
    function LexiconFetches(c: CacheData): seq<string> {
      if c.lexicon.Some? then []
      else [LexiconPath] + if Answer(LexiconPath).Ok() then [] else [LegacyLexiconPath]
    }

    /** `loadBooksIndex()` from the current state. */
    function BooksIndexNow(): Result<BooksIndex, LoadError>
      reads this
    {
      if cache.booksIndex.Some? then Ok(cache.booksIndex.value)
      else BooksIndexOf(BooksIndexPath, Answer(BooksIndexPath))
    }

    /** `loadCommentators()` from the current state. */
    function CommentatorsNow(): Result<CommentatorsIndex, LoadError>
      reads this
    {
      if cache.commentators.Some? then Ok(cache.commentators.value)
      else CommentatorsOf(CommentatorsPath, Answer(CommentatorsPath))
    }

    /** `loadVerseFile(bookId, parashaId, chapter, verse)` from the current
        state: the cached record of the target parasha, else its file. */
    function VerseNow(book: string, parasha: string, chapter: nat, verse: nat): Result<VerseFile, LoadError>
      reads this
    {
      VerseWith(cache.verses, ParashaTableNow(), book, parasha, chapter, verse)
    }

    /** `loadVerseFile` with `verses` cached and `table` as the parasha
        table. */
    function VerseWith(verses: Option<map<string, VerseFile>>, table: ParashaTable,
                       book: string, parasha: string, chapter: nat, verse: nat): Result<VerseFile, LoadError> {
      var target := TargetIn(table, book, parasha, chapter, verse);
      var key := VerseKey(book, target, chapter, verse);
      if verses.Some? && key in verses.value then Ok(verses.value[key])
      else VerseOf(VersePath(book, target, chapter, verse), Answer(VersePath(book, target, chapter, verse)))
    }

    /** `loadChapter(bookId, chapter, parashaId?)` from the current state. */
    function ChapterNow(book: string, chapter: nat, parasha: Option<string>): Result<ChapterFile, LoadError>
      reads this
    {
      ChapterWith(cache.chapters, ParashaTableNow(), book, chapter, parasha)
    }

    /** `loadChapter` with `chapters` cached and `table` as the parasha
        table. */
    function ChapterWith(chapters: map<string, ChapterFile>, table: ParashaTable,
                         book: string, chapter: nat, parasha: Option<string>): Result<ChapterFile, LoadError> {
      var key := ChapterKey(book, parasha, chapter);
      if key in chapters then Ok(chapters[key])
      else
        var given := parasha.Some? && parasha.value != "";
        var resolved := ParashaByChapter(if book in table then table[book] else [], chapter, None);
        var first := if given then ParashaChapterPath(book, parasha.value, chapter)
                     else if resolved.Some? then ParashaChapterPath(book, resolved.value.id, chapter)
                     else LegacyChapterPath(book, chapter);
        ChapterFrom(book, chapter, parasha, first)
    }

    /** The record `loadChapter` ends with once it knows the first file to
        try: that file, else the legacy one, tagged with the given parasha
        id when it lacks one. */
    function ChapterFrom(book: string, chapter: nat, parasha: Option<string>, first: string): Result<ChapterFile, LoadError> {
      var path := if Answer(first).Ok() then first else LegacyChapterPath(book, chapter);
      match ChapterOf(path, Answer(path))
      case Err(e) => Err(e)
      case Ok(loaded) =>
        var given := parasha.Some? && parasha.value != "";
        Ok(if (loaded.parasha.None? || loaded.parasha.value == "") && given then loaded.(parasha := parasha) else loaded)
    }

    /** A fresh loader: `cache` starts empty and `loadCache` runs at once. */
    constructor(server: map<string, Response>, persisted: Option<Persisted>, now: int)
      ensures this.server == server && clock == now && fetched == []
      ensures stored == persisted
      ensures cache == Restore(persisted, InitialCache(now), now)
    {
      this.server := server;
      clock := now;
      fetched := [];
      stored := persisted;
      cache := InitialCache(now);
      new;
      LoadCache();
    }

    method Fetch(path: string) returns (r: Response)
      modifies this
      ensures r == Answer(path)
      ensures fetched == old(fetched) + [path]
      ensures cache == old(cache) && stored == old(stored) && clock == old(clock)
    {
      r := Answer(path);
      fetched := fetched + [path];
    }

    method SaveCache()
      modifies this
      ensures stored == Some(Snapshot(cache, clock))
      ensures cache == old(cache) && clock == old(clock) && fetched == old(fetched)
    {
      stored := Some(Snapshot(cache, clock));
    }

    method LoadCache()
      modifies this
      ensures cache == Restore(stored, old(cache), clock)
      ensures stored == old(stored) && clock == old(clock) && fetched == old(fetched)
    {
      match stored
      case None =>
      case Some(Unparseable) =>
        cache := InitialCache(clock);
      case Some(Saved(version, bi, bm, ch, vs, cm, lx, ps, last)) =>
        if version == CacheVersion {
          cache := CacheData(bi, bm.GetOr(map[]), ch.GetOr(map[]), Some(vs.GetOr(map[])), cm, lx,
                             ps.GetOr(map[]), last.GetOr(clock));
        }
    }

    /** `clearCache()`: empty maps, no optional tables, entry removed. */
    method ClearCache()
      modifies this
      ensures cache == ClearedCache(clock)
      ensures !ShouldUpdateCache()
      ensures stored == None
      ensures clock == old(clock) && fetched == old(fetched)
    {
      cache := ClearedCache(clock);
      stored := None;
    }

    /** `shouldUpdateCache()`: more than 24 hours since `lastCacheUpdate`. */
    function ShouldUpdateCache(): (r: bool)
      reads this
      ensures r <==> clock - cache.lastCacheUpdate > CacheLifetime
    {
      var hours := (clock - cache.lastCacheUpdate) as real / (1000.0 * 60.0 * 60.0);
      hours > 24.0
    }

    method LoadBooksIndex() returns (r: Result<BooksIndex, LoadError>)
      modifies this
      ensures clock == old(clock)
      ensures cache.bookMetadata == old(cache.bookMetadata) && cache.chapters == old(cache.chapters)
      ensures CommentatorsNow() == old(CommentatorsNow()) && LexiconNow() == old(LexiconNow())
      ensures r == old(BooksIndexNow())
      ensures old(cache.booksIndex).Some? ==>
        r == Ok(old(cache.booksIndex.value)) && cache == old(cache)
        && stored == old(stored) && fetched == old(fetched)
      ensures old(cache.booksIndex).None? ==>
        && fetched == old(fetched) + [BooksIndexPath]
        && r == BooksIndexOf(BooksIndexPath, Answer(BooksIndexPath))
        && (r.Ok? ==> cache == old(cache).(booksIndex := Some(r.value)) && stored == Some(Snapshot(cache, clock)))
        && (r.Err? ==> cache == old(cache) && stored == old(stored))
    {
      if cache.booksIndex.Some? {
        return Ok(cache.booksIndex.value);
      }
      var response := Fetch(BooksIndexPath);
      r := BooksIndexOf(BooksIndexPath, response);
      if r.Ok? {
        cache := cache.(booksIndex := Some(r.value));
        SaveCache();
      }
    }

    method LoadBookMetadata(book: string) returns (r: Result<BookMetadata, LoadError>)
      modifies this
      ensures clock == old(clock)
      ensures cache.chapters == old(cache.chapters) && cache.parashas == old(cache.parashas)
      ensures r == old(MetadataNow(book))
      ensures book in old(cache.bookMetadata) ==>
        cache == old(cache) && stored == old(stored) && fetched == old(fetched)
      ensures book !in old(cache.bookMetadata) ==>
        && fetched == old(fetched) + [BookMetadataPath(book)]
        && (r.Ok? ==> cache == old(cache).(bookMetadata := old(cache.bookMetadata)[book := r.value])
                      && stored == Some(Snapshot(cache, clock)))
        && (r.Err? ==> cache == old(cache) && stored == old(stored))
      ensures cache == WithMetadata(old(cache), book)
      ensures stored == if SavesMetadata(old(cache), book) then Some(Snapshot(cache, clock)) else old(stored)
      ensures fetched == old(fetched) + MetadataFetches(old(cache), book)
    {
      if book in cache.bookMetadata {
        return Ok(cache.bookMetadata[book]);
      }
      var path := BookMetadataPath(book);
      var response := Fetch(path);
      r := BookMetadataOf(path, response);
      if r.Ok? {
        cache := cache.(bookMetadata := cache.bookMetadata[book := r.value]);
        SaveCache();
      }
    }

    method LoadCommentators() returns (r: Result<CommentatorsIndex, LoadError>)
      modifies this
      ensures clock == old(clock)
      ensures cache.bookMetadata == old(cache.bookMetadata) && cache.chapters == old(cache.chapters)
      ensures LexiconNow() == old(LexiconNow())
      ensures r == old(CommentatorsNow())
      ensures old(cache.commentators).Some? ==>
        r == Ok(old(cache.commentators.value)) && cache == old(cache)
        && stored == old(stored) && fetched == old(fetched)
      ensures old(cache.commentators).None? ==>
        && fetched == old(fetched) + [CommentatorsPath]
        && r == CommentatorsOf(CommentatorsPath, Answer(CommentatorsPath))
        && (r.Ok? ==> cache == old(cache).(commentators := Some(r.value)) && stored == Some(Snapshot(cache, clock)))
        && (r.Err? ==> cache == old(cache) && stored == old(stored))
    {
      if cache.commentators.Some? {
        return Ok(cache.commentators.value);
      }
      var response := Fetch(CommentatorsPath);
      r := CommentatorsOf(CommentatorsPath, response);
      if r.Ok? {
        cache := cache.(commentators := Some(r.value));
        SaveCache();
      }
    }

    /** `loadParashas()`: the cached table when it has a key, else fetched. */
    method LoadParashas() returns (r: Result<ParashaTable, LoadError>)
      modifies this
      ensures clock == old(clock)
      ensures r.Ok? ==> r.value == old(ParashaTableNow())
      ensures r.Err? <==> |old(cache.parashas)| == 0 && ParashasOf(ParashasPath, Answer(ParashasPath)).Err?
      ensures cache == WithParashas(old(cache))
      ensures stored == if SavesParashas(old(cache)) then Some(Snapshot(cache, clock)) else old(stored)
      ensures fetched == old(fetched) + ParashaFetches(old(cache))
    {
      if |cache.parashas| > 0 {
        return Ok(cache.parashas);
      }
      var response := Fetch(ParashasPath);
      r := ParashasOf(ParashasPath, response);
      if r.Ok? {
        cache := cache.(parashas := r.value);
        SaveCache();
      }
    }

    /** `getBookParashas(bookId)`: never fails; `[]` for an unknown book or
        a failed load. */
    method GetBookParashas(book: string) returns (r: seq<Parasha>)
      modifies this
      ensures clock == old(clock)
      ensures r == old(BookParashas(book))
      ensures cache == WithParashas(old(cache))
      ensures stored == if SavesParashas(old(cache)) then Some(Snapshot(cache, clock)) else old(stored)
      ensures fetched == old(fetched) + ParashaFetches(old(cache))
      ensures ParashaTableNow() == old(ParashaTableNow())
    {
      var all := LoadParashas();
      match all
      case Ok(t) =>
        r := if book in t then t[book] else [];
      case Err(_) =>
        r := [];
    }

    /** `getParasha(bookId, parashaId)`: the first of the book's parashot
        with that id. */
    method GetParasha(book: string, id: string) returns (r: Option<Parasha>)
      modifies this
      ensures clock == old(clock)
      ensures r == FindById(old(BookParashas(book)), id)
      ensures cache == WithParashas(old(cache))
      ensures stored == if SavesParashas(old(cache)) then Some(Snapshot(cache, clock)) else old(stored)
      ensures fetched == old(fetched) + ParashaFetches(old(cache))
      ensures ParashaTableNow() == old(ParashaTableNow())
    {
      var ps := GetBookParashas(book);
      r := FindById(ps, id);
    }

    /** `getParashaByChapter(bookId, chapter, verse?)`. */
    method GetParashaByChapter(book: string, chapter: nat, verse: Option<int>) returns (r: Option<Parasha>)
      modifies this
      ensures clock == old(clock)
      ensures r == ParashaByChapter(old(BookParashas(book)), chapter, verse)
      ensures cache == WithParashas(old(cache))
      ensures stored == if SavesParashas(old(cache)) then Some(Snapshot(cache, clock)) else old(stored)
      ensures fetched == old(fetched) + ParashaFetches(old(cache))
      ensures ParashaTableNow() == old(ParashaTableNow())
    {
      var ps := GetBookParashas(book);
      r := ParashaByChapter(ps, chapter, verse);
    }

    /** Once a book's parashot are non-empty after a load, the table is in
        the cache, so a second load fetches nothing. */
    lemma LoadedParashasStay(book: string)
      requires BookParashas(book) != []
      requires cache == WithParashas(cache)
      ensures |cache.parashas| > 0
    {
    }

    /** `loadVerseFile(bookId, parashaId, chapter, verse)`: redirect to the
        parasha the resolver picks, then the verse cache, then the verse
        file. There is no fallback to a chapter file: a failed fetch fails. */
    method LoadVerseFile(book: string, parasha: string, chapter: nat, verse: nat)
      returns (r: Result<VerseFile, LoadError>)
      modifies this
      ensures clock == old(clock)
      ensures r == old(VerseNow(book, parasha, chapter, verse))
      ensures ParashaTableNow() == old(ParashaTableNow())
      ensures
        var target := old(TargetParasha(book, parasha, chapter, verse));
        var key := VerseKey(book, target, chapter, verse);
        var path := VersePath(book, target, chapter, verse);
        var base := WithParashas(old(cache));
        var hit := old(cache.verses).Some? && key in old(cache.verses.value);
        && (hit ==>
              && r == Ok(old(cache.verses.value)[key])
              && cache == base
              && fetched == old(fetched) + ParashaFetches(old(cache)))
        && (!hit ==>
              && fetched == old(fetched) + ParashaFetches(old(cache)) + [path]
              && r == VerseOf(path, Answer(path))
              && (r.Ok? ==> cache == base.(verses := Some(base.verses.GetOr(map[])[key := r.value])))
              && (r.Err? ==> cache == base))
        && stored == if (!hit && r.Ok?) || SavesParashas(old(cache)) then Some(Snapshot(cache, clock))
                     else old(stored)
      decreases if TargetParasha(book, parasha, chapter, verse) != parasha then 1 else 0
    {
      ghost var c0, f0, s0 := cache, fetched, stored;
      var correct := GetParashaByChapter(book, chapter, Some(verse));
      if correct.Some? && correct.value.id != parasha {
        LoadedParashasStay(book);
        WithParashasIdempotent(c0);
        r := LoadVerseFile(book, correct.value.id, chapter, verse);
        return;
      }
      var key := VerseKey(book, parasha, chapter, verse);
      if cache.verses.Some? && key in cache.verses.value {
        return Ok(cache.verses.value[key]);
      }
      var path := VersePath(book, parasha, chapter, verse);
      var response := Fetch(path);
      r := VerseOf(path, response);
      if r.Ok? {
        cache := cache.(verses := Some(cache.verses.GetOr(map[])[key := r.value]));
        SaveCache();
      }
    }

    /** A verse load redirects at most once: from the parasha it is sent
        to, the resolver points nowhere else. */
    lemma RedirectSettles(book: string, parasha: string, chapter: nat, verse: nat)
      ensures var t := TargetParasha(book, parasha, chapter, verse);
        TargetParasha(book, t, chapter, verse) == t
    {
    }

    /** Fetch `path`, and `fallback` when that answer is not ok. */
    method FetchOr(path: string, fallback: string) returns (used: string, r: Response)
      modifies this
      ensures used == (if Answer(path).Ok() then path else fallback) && r == Answer(used)
      ensures fetched == old(fetched) + [path] + (if Answer(path).Ok() then [] else [fallback])
      ensures cache == old(cache) && stored == old(stored) && clock == old(clock)
    {
      used := path;
      r := Fetch(path);
      if !r.Ok() {
        used := fallback;
        r := Fetch(fallback);
      }
    }

    /** The first file `loadChapter` tries: the given parasha's, else that
        of the parasha the resolver picks for the chapter, else the legacy
        chapter file. Resolving may load the parasha table. */
    method ChapterSourcePath(book: string, chapter: nat, parasha: Option<string>) returns (path: string)
      modifies this
      ensures clock == old(clock)
      ensures ParashaTableNow() == old(ParashaTableNow())
      ensures
        var given := parasha.Some? && parasha.value != "";
        var resolved := ParashaByChapter(old(BookParashas(book)), chapter, None);
        && path == (if given then ParashaChapterPath(book, parasha.value, chapter)
                    else if resolved.Some? then ParashaChapterPath(book, resolved.value.id, chapter)
                    else LegacyChapterPath(book, chapter))
        && fetched == old(fetched) + (if given then [] else ParashaFetches(old(cache)))
        && cache == (if given then old(cache) else WithParashas(old(cache)))
        && stored == (if !given && SavesParashas(old(cache)) then Some(Snapshot(cache, clock)) else old(stored))
    {
      if parasha.Some? && parasha.value != "" {
        path := ParashaChapterPath(book, parasha.value, chapter);
      } else {
        var resolved := GetParashaByChapter(book, chapter, None);
        if resolved.Some? {
          path := ParashaChapterPath(book, resolved.value.id, chapter);
        } else {
          path := LegacyChapterPath(book, chapter);
        }
      }
    }

    /** `loadChapter(bookId, chapter, parashaId?)`: the parasha folder
        first (given, else resolved, else the legacy book folder), then the
        legacy file on a non-ok response; the record gets the parasha id
        only when it lacks one and an id was given. */
    method LoadChapter(book: string, chapter: nat, parasha: Option<string>)
      returns (r: Result<ChapterFile, LoadError>)
      modifies this
      ensures clock == old(clock)
      ensures r == old(ChapterNow(book, chapter, parasha))
      ensures ParashaTableNow() == old(ParashaTableNow())
      ensures
        var key := ChapterKey(book, parasha, chapter);
        var given := parasha.Some? && parasha.value != "";
        var resolved := ParashaByChapter(old(BookParashas(book)), chapter, None);
        var first := if given then ParashaChapterPath(book, parasha.value, chapter)
                     else if resolved.Some? then ParashaChapterPath(book, resolved.value.id, chapter)
                     else LegacyChapterPath(book, chapter);
        var lookups := if given then [] else ParashaFetches(old(cache));
        var base := if given then old(cache) else WithParashas(old(cache));
        && (key in old(cache.chapters) ==>
              cache == old(cache) && stored == old(stored) && fetched == old(fetched))
        && (key !in old(cache.chapters) ==>
              && fetched == old(fetched) + lookups + [first]
                            + (if Answer(first).Ok() then [] else [LegacyChapterPath(book, chapter)])
              && (r.Ok? ==> cache == base.(chapters := base.chapters[key := r.value])
                            && stored == Some(Snapshot(cache, clock)))
              && (r.Err? ==> cache == base
                             && stored == if !given && SavesParashas(old(cache))
                                          then Some(Snapshot(cache, clock)) else old(stored)))
    {
      var key := ChapterKey(book, parasha, chapter);
      if key in cache.chapters {
        return Ok(cache.chapters[key]);
      }
      var first := ChapterSourcePath(book, chapter, parasha);
      r := LoadChapterFrom(book, chapter, parasha, first);
    }

    /** The rest of `loadChapter` once the first file is known: fetch it
        (the legacy file on a non-ok answer), tag the record, cache and
        save it. */
    method LoadChapterFrom(book: string, chapter: nat, parasha: Option<string>, first: string)
      returns (r: Result<ChapterFile, LoadError>)
      modifies this
      ensures r == ChapterFrom(book, chapter, parasha, first)
      ensures clock == old(clock)
      ensures fetched == old(fetched) + [first] + (if Answer(first).Ok() then [] else [LegacyChapterPath(book, chapter)])
      ensures r.Ok? ==>
        var key := ChapterKey(book, parasha, chapter);
        cache == old(cache).(chapters := old(cache).chapters[key := r.value]) && stored == Some(Snapshot(cache, clock))
      ensures r.Err? ==> cache == old(cache) && stored == old(stored)
    {
      var path, response := FetchOr(first, LegacyChapterPath(book, chapter));
      var loaded := ChapterOf(path, response);
      if loaded.Err? {
        return Err(loaded.error);
      }
      var record := loaded.value;
      if (record.parasha.None? || record.parasha.value == "") && parasha.Some? && parasha.value != "" {
        record := record.(parasha := parasha);
      }
      cache := cache.(chapters := cache.chapters[ChapterKey(book, parasha, chapter) := record]);
      SaveCache();
      r := Ok(record);
    }

    /** `preloadChapters(bookId, chapters, parashaId?)`, one chapter after
        the other; failures are swallowed. Chapters already cached stay as
        they were, and every chapter that loads is cached. */
    method PreloadChapters(book: string, chapters: seq<nat>, parasha: Option<string>)
      modifies this
      ensures clock == old(clock)
      ensures forall k :: k in old(cache.chapters) ==> k in cache.chapters && cache.chapters[k] == old(cache.chapters)[k]
      ensures ParashaTableNow() == old(ParashaTableNow())
    {
      var i := 0;
      while i < |chapters|
        invariant 0 <= i <= |chapters|
        invariant clock == old(clock)
        invariant forall k :: k in old(cache.chapters) ==> k in cache.chapters && cache.chapters[k] == old(cache.chapters)[k]
        invariant ParashaTableNow() == old(ParashaTableNow())
      {
        var _ := LoadChapter(book, chapters[i], parasha);
        i := i + 1;
      }
    }

    /** `getAvailableChapters(bookId)`: the metadata's list, `[]` when it
        has none or the metadata does not load. */
    method GetAvailableChapters(book: string) returns (r: seq<int>)
      modifies this
      ensures clock == old(clock)
      ensures r == old(AvailableChaptersNow(book))
      ensures AvailableChaptersNow(book) == r
      ensures cache.parashas == old(cache.parashas)
      ensures ParashaTableNow() == old(ParashaTableNow())
      ensures cache == WithMetadata(old(cache), book)
      ensures stored == if SavesMetadata(old(cache), book) then Some(Snapshot(cache, clock)) else old(stored)
      ensures fetched == old(fetched) + MetadataFetches(old(cache), book)
    {
      var m := LoadBookMetadata(book);
      match m
      case Ok(md) =>
        r := md.availableChapters.GetOr([]);
      case Err(_) =>
        r := [];
    }

    /** `getChaptersForParasha(bookId, parashaId)`: the chapters of the
        parasha's range that the book metadata lists, ascending; `[]` for
        an unknown parasha. */
    method GetChaptersForParasha(book: string, id: string) returns (r: seq<int>)
      modifies this
      ensures clock == old(clock)
      ensures match FindById(old(BookParashas(book)), id)
        case None => r == []
        case Some(p) => r == ChaptersIn(Consecutive(p.startChapter, p.endChapter), old(AvailableChaptersNow(book)))
      ensures Ascending(r)
      ensures var c1 := WithParashas(old(cache));
        var stored1 := if SavesParashas(old(cache)) then Some(Snapshot(c1, clock)) else old(stored);
        if FindById(old(BookParashas(book)), id).None? then
          && cache == c1 && stored == stored1
          && fetched == old(fetched) + ParashaFetches(old(cache))
        else
          && cache == WithMetadata(c1, book)
          && stored == (if SavesMetadata(c1, book) then Some(Snapshot(cache, clock)) else stored1)
          && fetched == old(fetched) + ParashaFetches(old(cache)) + MetadataFetches(c1, book)
    {
      ghost var available0 := AvailableChaptersNow(book);
      var parasha := GetParasha(book, id);
      if parasha.None? {
        return [];
      }
      assert AvailableChaptersNow(book) == available0;
      var available := GetAvailableChapters(book);
      r := AvailableInRange(parasha.value.startChapter, parasha.value.endChapter, available);
    }

    /** `loadHebrewLexicon()`. */
    method LoadHebrewLexicon() returns (r: Result<HebrewLexicon, LoadError>)
      modifies this
      ensures clock == old(clock)
      ensures cache.bookMetadata == old(cache.bookMetadata) && cache.chapters == old(cache.chapters)
      ensures r == old(LexiconNow())
      ensures cache == WithLexicon(old(cache))
      ensures stored == if SavesLexicon(old(cache)) then Some(Snapshot(cache, clock)) else old(stored)
      ensures fetched == old(fetched) + LexiconFetches(old(cache))
    {
      if cache.lexicon.Some? {
        return Ok(cache.lexicon.value);
      }
      var response := Fetch(LexiconPath);
      if !response.Ok() {
        var fallback := Fetch(LegacyLexiconPath);
        if !fallback.Ok() {
          return Err(HttpStatus(LexiconPath, response.status));
        }
        r := LexiconOf(LegacyLexiconPath, fallback);
      } else {
        r := LexiconOf(LexiconPath, response);
      }
      if r.Ok? {
        cache := cache.(lexicon := Some(r.value));
        SaveCache();
      }
    }

    /** `getTorahStructure()`: fetched every time, never cached. */
    method GetTorahStructure() returns (r: Option<TorahStructure>)
      modifies this
      ensures r == StructureNow()
      ensures fetched == old(fetched) + [StructurePath]
      ensures cache == old(cache) && stored == old(stored) && clock == old(clock)
    {
      var response := Fetch(StructurePath);
      r := StructureOf(response);
    }

    /** `getParashaVerseRange(bookId, chapter, parashaId)`. */
    method GetParashaVerseRange(book: string, chapter: nat, id: string) returns (r: Option<VerseRange>)
      modifies this
      ensures clock == old(clock)
      ensures r == ParashaVerseRange(old(BookParashas(book)), StructureNow(), book, chapter, id)
      ensures cache == WithParashas(old(cache))
      ensures ParashaTableNow() == old(ParashaTableNow())
      ensures stored == if SavesParashas(old(cache)) then Some(Snapshot(cache, clock)) else old(stored)
      ensures fetched == old(fetched) + ParashaFetches(old(cache))
        + seq(RangeStructureFetches(old(BookParashas(book)), book, chapter, id), _ => StructurePath)
    {
      var ps := GetBookParashas(book);
      var found := FindById(ps, id);
      if found.None? {
        return None;
      }
      var p := found.value;
      if chapter < p.startChapter || chapter > p.endChapter {
        return None;
      }
      if chapter == p.startChapter {
        if chapter == p.endChapter {
          return Some(VerseRange(p.startVerse, p.endVerse));
        } else {
          var structure := GetTorahStructure();
          if structure.None? {
            return None;
          }
          var count := ChapterCount(structure.value, book, chapter);
          if count.Some? {
            return Some(VerseRange(p.startVerse, count));
          }
        }
      }
      if chapter == p.endChapter {
        return Some(VerseRange(Some(1), p.endVerse));
      }
      var structure := GetTorahStructure();
      if structure.None? {
        return None;
      }
      var count := ChapterCount(structure.value, book, chapter);
      if count.Some? {
        return Some(VerseRange(Some(1), count));
      }
      return None;
    }

    /** `getAvailableVerses(bookId, chapter, parashaId?)`, with its loops. */
    method GetAvailableVerses(book: string, chapter: nat, id: Option<string>) returns (r: seq<int>)
      modifies this
      ensures clock == old(clock)
      ensures r == AvailableVerses(old(BookParashas(book)), StructureNow(), book, chapter, id)
      ensures ParashaTableNow() == old(ParashaTableNow())
      ensures var given := id.Some? && id.value != "";
        var range := if given then ParashaVerseRange(old(BookParashas(book)), StructureNow(), book, chapter, id.value) else None;
        && cache == (if given then WithParashas(old(cache)) else old(cache))
        && stored == (if given && SavesParashas(old(cache)) then Some(Snapshot(cache, clock)) else old(stored))
        && fetched == old(fetched)
             + (if given then ParashaFetches(old(cache))
                  + seq(RangeStructureFetches(old(BookParashas(book)), book, chapter, id.value), _ => StructurePath)
                else [])
             + (if range.Some? then [] else [StructurePath])
    {
      if id.Some? && id.value != "" {
        var range := GetParashaVerseRange(book, chapter, id.value);
        if range.Some? {
          if range.value.start.Some? && range.value.end.Some? {
            r := CollectRange(range.value.start.value, range.value.end.value);
          } else {
            r := [];
          }
          return;
        }
      }
      var structure := GetTorahStructure();
      if structure.None? {
        return [1];
      }
      var count := ChapterCount(structure.value, book, chapter);
      if count.Some? {
        r := CollectRange(1, count.value);
        return;
      }
      var standard := StandardVerseCount(book, chapter);
      if standard.Some? {
        r := CollectRange(1, standard.value);
        return;
      }
      r := [1];
    }

    /** `searchWord(hebrew)`: null when the lexicon does not load. */
    method SearchWord(hebrew: string) returns (r: Option<LexiconEntry>)
      modifies this
      ensures clock == old(clock)
      ensures old(LexiconNow()).Err? ==> r.None?
      ensures old(LexiconNow()).Ok? ==> r == LookupWord(old(LexiconNow()).value, hebrew)
      ensures cache == WithLexicon(old(cache))
      ensures stored == if SavesLexicon(old(cache)) then Some(Snapshot(cache, clock)) else old(stored)
      ensures fetched == old(fetched) + LexiconFetches(old(cache))
    {
      var lexicon := LoadHebrewLexicon();
      if lexicon.Err? {
        return None;
      }
      r := LookupWord(lexicon.value, hebrew);
    }

    /** `getWordTranslations(hebrew)`. */
    method GetWordTranslations(hebrew: string) returns (r: seq<Translation>)
      modifies this
      ensures clock == old(clock)
      ensures old(LexiconNow()).Err? ==> r == [UnknownTranslation]
      ensures old(LexiconNow()).Ok? ==> r == WordTranslations(LookupWord(old(LexiconNow()).value, hebrew))
      ensures cache == WithLexicon(old(cache))
      ensures stored == if SavesLexicon(old(cache)) then Some(Snapshot(cache, clock)) else old(stored)
      ensures fetched == old(fetched) + LexiconFetches(old(cache))
    {
      var entry := SearchWord(hebrew);
      r := WordTranslations(entry);
    }
  }
}
