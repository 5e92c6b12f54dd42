/** `scripts/generateFullStructure.js`: the generator that lays out one
    folder per parasha with a `metadata.json` and a stub file per chapter,
    taking the parasha list and the chapter table from the loaded metadata
    files. The file system is a map from path to content; an uncaught
    exception (a `TypeError`) is the `threw` flag, which stops the run. */
module FullStructure {
  import opened Wrappers
  import opened Text
  import opened Ranges
  import opened JsonValues

  /** The books in the order the generator visits them. */
  const BookIds: seq<string> := ["genesis", "exodus", "leviticus", "numbers", "deuteronomy"]

  /** The data directory, relative to the project root. */
  const DataDir: string := "public/data"

  // ---------------------------------------------------------------------
  // The chapter stub

  datatype Morphology = Morphology(partOfSpeech: string, gender: string, number: string, root: string)
  datatype StubWord = StubWord(hebrew: string, transliteration: string, translations: seq<string>, morphology: Morphology)

  const DavarHebrew: string := "דָבָר"
  const DavarRoot: string := "דבר"
  const DavarTranslations: seq<string> := ["слово", "вещь", "дело"]

  /** The one placeholder word every stub verse carries. */
  const DavarWord: StubWord :=
    StubWord(DavarHebrew, "davar", DavarTranslations, Morphology("noun", "masculine", "singular", DavarRoot))

  datatype StubVerse = StubVerse(number: int, words: seq<StubWord>)

  /** The object `createChapterStub` returns; `totalVerses` is the verse
      count exactly as the chapter table gives it (possibly undefined). */
  datatype ChapterStub = ChapterStub(
    bookId: string, parashaId: string, chapterNumber: int,
    totalVerses: Option<Json>, verses: seq<StubVerse>)

  /** The right operand of `totalVerses += count` when the sum stays a
      number: a number, a boolean or null; None stands for NaN (undefined)
      and for the operands that make `+=` concatenate text (a string, an
      array, an object). */
  function NumberOf(v: Option<Json>): (n: Option<int>)
    ensures v.Some? && v.value.JNum? ==> n == Some(v.value.n)
    ensures v.None? || v.value.JObj? ==> n.None?
    ensures v == Some(JNull) ==> n == Some(0)
  {
    match v
    case None => None
    case Some(JNum(k)) => Some(k)
    case Some(JBool(b)) => Some(if b then 1 else 0)
    case Some(JNull) => Some(0)
    case Some(_) => None
  }

  /** How many times `for (let verse = 1; verse <= count; verse++)` runs. */
  function VerseLimit(count: Option<Json>): (n: nat)
    ensures ToNumber(count).Some? && ToNumber(count).value >= 1 ==> n == ToNumber(count).value
    ensures ToNumber(count).None? || ToNumber(count).value < 1 ==> n == 0
  {
    match ToNumber(count)
    case Some(k) => if k >= 1 then k else 0
    case None => 0
  }

  /** The verses 1..n, each with the placeholder word. */
  function StubVerses(n: nat): (vs: seq<StubVerse>)
    ensures |vs| == n
    ensures forall i :: 0 <= i < n ==> vs[i].number == i + 1 && vs[i].words == [DavarWord]
  {
    if n == 0 then [] else StubVerses(n - 1) + [StubVerse(n, [DavarWord])]
  }

  /** Lines 36-66: the stub records the count it was given and numbers
      its verses 1, 2, ... in order, as many as the count says. */
  function ChapterStubOf(bookId: string, parashaId: string, chapter: int, count: Option<Json>): (c: ChapterStub)
    ensures c.bookId == bookId && c.parashaId == parashaId && c.chapterNumber == chapter
    ensures c.totalVerses == count
    ensures |c.verses| == VerseLimit(count)
    ensures forall i :: 0 <= i < |c.verses| ==> c.verses[i] == StubVerse(i + 1, [DavarWord])
  {
    ChapterStub(bookId, parashaId, chapter, count, StubVerses(VerseLimit(count)))
  }

  /** A numeric count of n >= 1 gives exactly the verses 1..n. */
  lemma NumericCountStub(bookId: string, parashaId: string, chapter: int, n: int)
    requires n >= 1
    ensures var c := ChapterStubOf(bookId, parashaId, chapter, Some(JNum(n)));
      |c.verses| == n && c.verses[0].number == 1 && c.verses[n - 1].number == n
  {
  }

  // ---------------------------------------------------------------------
  // The parasha metadata

  datatype Names = Names(hebrew: Option<Json>, russian: Option<Json>, english: Option<Json>)
  datatype Structure = Structure(startChapter: Option<Json>, endChapter: Option<Json>, startVerse: Json, endVerse: Json)
  datatype Content = Content(theme: Option<Json>, description: Option<Json>)

  /** The metadata object; `totalVerses` None is NaN. */
  datatype ParashaMetadata = ParashaMetadata(
    id: string, bookId: string, number: Option<Json>, names: Names,
    structure: Structure, content: Content,
    chapters: seq<int>, totalVerses: Option<int>, availableChapters: seq<int>)

  /** Lines 68-92: the fields copied from the parasha entry, a start verse
      of 1 and an end verse of null unless the entry gives truthy ones, and
      an empty chapter list with no verses. */
  function InitialMetadata(bookId: string, id: string, p: Json): (m: ParashaMetadata)
    ensures m.id == id && m.bookId == bookId && m.number == Field(p, "number")
    ensures m.names == Names(Field(p, "hebrew"), Field(p, "russian"), Field(p, "english"))
    ensures m.structure.startChapter == Field(p, "startChapter")
    ensures m.structure.endChapter == Field(p, "endChapter")
    ensures m.structure.startVerse == if Truthy(Field(p, "startVerse")) then Field(p, "startVerse").value else JNum(1)
    ensures m.structure.endVerse == if Truthy(Field(p, "endVerse")) then Field(p, "endVerse").value else JNull
    ensures m.content == Content(Field(p, "theme"), Field(p, "description"))
    ensures m.chapters == [] && m.availableChapters == [] && m.totalVerses == Some(0)
  {
    ParashaMetadata(
      id, bookId, Field(p, "number"),
      Names(Field(p, "hebrew"), Field(p, "russian"), Field(p, "english")),
      Structure(Field(p, "startChapter"), Field(p, "endChapter"),
        OrElse(Field(p, "startVerse"), JNum(1)), OrElse(Field(p, "endVerse"), JNull)),
      Content(Field(p, "theme"), Field(p, "description")),
      [], Some(0), [])
  }

  /** `parasha.id` as `path.join` accepts it: a string; anything else
      (a null entry, a missing or non-string id) throws. */
  function ParashaId(p: Json): (id: Option<string>)
    ensures id.Some? <==> Field(p, "id").Some? && Field(p, "id").value.JStr?
    ensures id.Some? ==> id.value == Field(p, "id").value.s
  {
    match Field(p, "id")
    case Some(JStr(s)) => Some(s)
    case _ => None
  }

  /** The chapters `for (chapter = startChapter; chapter <= endChapter;
      chapter++)` visits when the start is a number: `<=` reads the end
      bound with `ToNumber`, and a NaN bound stops the loop at once. */
  predicate NumericBounds(p: Json) {
    && Field(p, "startChapter").Some? && Field(p, "startChapter").value.JNum?
    && ToNumber(Field(p, "endChapter")).Some?
  }

  function ChapterRange(p: Json): (xs: seq<int>)
    ensures forall j, k :: 0 <= j < k < |xs| ==> xs[j] < xs[k]
    ensures NumericBounds(p) ==>
      xs == Consecutive(Field(p, "startChapter").value.n, ToNumber(Field(p, "endChapter")).value)
    ensures xs != [] ==> NumericBounds(p)
  {
    match Field(p, "startChapter")
    case Some(JNum(lo)) =>
      (match ToNumber(Field(p, "endChapter"))
       case Some(hi) => Consecutive(lo, hi)
       case None => [])
    case _ => []
  }

  // ---------------------------------------------------------------------
  // Paths

  function ParashaDir(bookId: string, parashaId: string): string {
    DataDir + "/" + bookId + "/" + parashaId
  }

  function MetadataPath(bookId: string, parashaId: string): string {
    ParashaDir(bookId, parashaId) + "/metadata.json"
  }

  /** `chapter-${chapter.toString().padStart(3, '0')}.json` in the parasha
      folder. */
  function ChapterPath(bookId: string, parashaId: string, chapter: int): string {
    ParashaDir(bookId, parashaId) + "/chapter-" + PadStart3(IntToString(chapter)) + ".json"
  }

  /** The metadata file is never taken for a chapter file. */
  lemma MetadataIsNotAChapter(bookId: string, parashaId: string, chapter: int)
    ensures MetadataPath(bookId, parashaId) != ChapterPath(bookId, parashaId, chapter)
  {
    var d := ParashaDir(bookId, parashaId);
    assert MetadataPath(bookId, parashaId)[|d| + 1] == 'm';
    assert ChapterPath(bookId, parashaId, chapter)[|d| + 1] == 'c';
  }

  /** Two chapters numbered from zero up get two files. */
  lemma ChapterPathInjective(bookId: string, parashaId: string, a: int, b: int)
    requires a >= 0 && b >= 0
    requires ChapterPath(bookId, parashaId, a) == ChapterPath(bookId, parashaId, b)
    ensures a == b
  {
    var pre := ParashaDir(bookId, parashaId) + "/chapter-";
    var pa := ChapterPath(bookId, parashaId, a);
    assert PadStart3(IntToString(a)) == pa[|pre|..|pa| - 5];
    assert PadStart3(IntToString(b)) == pa[|pre|..|pa| - 5];
    Pad3Injective(a, b);
  }

  // ---------------------------------------------------------------------
  // The chapter table

  /** `books` is undefined or null, so `books[bookId]` throws. */
  predicate BooksMissing(torah: Json) {
    Field(torah, "books").None? || Field(torah, "books").value.JNull?
  }

  /** `value[chapter]` on an object, an array or a string. */
  function Index(j: Json, chapter: int): (v: Option<Json>)
    ensures j.JObj? ==> v == Field(j, IntToString(chapter))
    ensures j.JArr? && 0 <= chapter < |j.items| ==> v == Some(j.items[chapter])
    ensures j.JNull? || j.JNum? || j.JBool? ==> v.None?
  {
    match j
    case JObj(m) => Field(j, IntToString(chapter))
    case JArr(xs) => if 0 <= chapter < |xs| then Some(xs[chapter]) else None
    case JStr(s) => if 0 <= chapter < |s| then Some(JStr([s[chapter]])) else None
    case _ => None
  }

  /** `undefined` or `null` ends an optional chain. */
  predicate Nullish(v: Option<Json>) {
    v.None? || v.value.JNull?
  }

  /** Line 117 once `books` is there: `books[bookId]?.chaptersData?.[chapter]`. */
  function ChapterEntry(torah: Json, bookId: string, chapter: int): (v: Option<Json>)
    ensures BooksMissing(torah) ==> v.None?
  {
    if BooksMissing(torah) then None
    else
      var book := Field(Field(torah, "books").value, bookId);
      if Nullish(book) then None
      else
        var chapters := Field(book.value, "chaptersData");
        if Nullish(chapters) then None else Index(chapters.value, chapter)
  }

  /** The table of one book, chapter by chapter. */
  type Table = int -> Option<Json>

  function TableOf(torah: Json, bookId: string): Table {
    c => ChapterEntry(torah, bookId, c)
  }

  /** The chapter has a truthy entry in the table. */
  predicate HasData(table: Table, chapter: int) {
    Truthy(table(chapter))
  }

  /** `chapterData.verses` of a chapter with data. */
  function VersesOf(table: Table, chapter: int): Option<Json>
    requires HasData(table, chapter)
  {
    Field(table(chapter).value, "verses")
  }

  /** The chapters of `xs` that have data, in their order. */
  function WithData(table: Table, xs: seq<int>): (r: seq<int>)
    ensures |r| <= |xs|
    ensures forall c :: c in r <==> c in xs && HasData(table, c)
    decreases |xs|
  {
    if xs == [] then []
    else
      var init := WithData(table, xs[..|xs| - 1]);
      var c := xs[|xs| - 1];
      assert forall x :: x in xs <==> x in xs[..|xs| - 1] || x == c by {
        assert xs == xs[..|xs| - 1] + [c];
      }
      if HasData(table, c) then init + [c] else init
  }

  lemma WithDataStep(table: Table, xs: seq<int>)
    requires xs != []
    ensures var c := xs[|xs| - 1];
      WithData(table, xs) == WithData(table, xs[..|xs| - 1]) + (if HasData(table, c) then [c] else [])
  {
  }

  /** Strictly ascending. */
  predicate Ascending(xs: seq<int>) {
    forall j, k :: 0 <= j < k < |xs| ==> xs[j] < xs[k]
  }

  /** Filtering keeps ascending order. */
  lemma {:induction false} WithDataAscending(table: Table, xs: seq<int>)
    requires forall j, k :: 0 <= j < k < |xs| ==> xs[j] < xs[k]
    ensures Ascending(WithData(table, xs))
  {
    if xs != [] {
      var init := xs[..|xs| - 1];
      var last := xs[|xs| - 1];
      assert forall j, k :: 0 <= j < k < |init| ==> init[j] < init[k] by {
        assert forall j :: 0 <= j < |init| ==> init[j] == xs[j];
      }
      WithDataAscending(table, init);
      var r := WithData(table, init);
      forall x | x in r
        ensures x < last
      {
        var j :| 0 <= j < |init| && init[j] == x;
        assert xs[j] == x;
      }
      WithDataStep(table, xs);
      if HasData(table, last) {
        var r2 := r + [last];
        forall j, k | 0 <= j < k < |r2|
          ensures r2[j] < r2[k]
        {
          assert r2[j] == r[j] && r[j] in r;
          if k == |r| {
            assert r2[k] == last;
          } else {
            assert r2[k] == r[k];
          }
        }
      }
    }
  }

  /** The verse counts of chapters with data, when each is a number. */
  function CountsOf(table: Table, cs: seq<int>): (r: Option<seq<int>>)
    requires forall c :: c in cs ==> HasData(table, c)
    ensures r.Some? <==> forall i :: 0 <= i < |cs| ==> NumberOf(VersesOf(table, cs[i])).Some?
    ensures r.Some? ==> (|r.value| == |cs|
      && forall i :: 0 <= i < |cs| ==> r.value[i] == NumberOf(VersesOf(table, cs[i])).value)
    decreases |cs|
  {
    if cs == [] then Some([])
    else
      var init := CountsOf(table, cs[..|cs| - 1]);
      var n := NumberOf(VersesOf(table, cs[|cs| - 1]));
      if init.Some? && n.Some? then Some(init.value + [n.value]) else None
  }

  lemma CountsOfStep(table: Table, w: seq<int>, c: int)
    requires forall x :: x in w ==> HasData(table, x)
    requires HasData(table, c)
    ensures var cs := CountsOf(table, w);
      var n := NumberOf(VersesOf(table, c));
      CountsOf(table, w + [c]) == if cs.Some? && n.Some? then Some(cs.value + [n.value]) else None
  {
    assert (w + [c])[..|w|] == w;
  }

  /** `a += b` on numbers, NaN absorbing. */
  function Plus(a: Option<int>, b: Option<int>): (r: Option<int>)
    ensures r.Some? <==> a.Some? && b.Some?
    ensures r.Some? ==> r.value == a.value + b.value
  {
    if a.Some? && b.Some? then Some(a.value + b.value) else None
  }

  /** The total the metadata ends with, stated independently of the loop:
      the start plus the sum of the counts of the chapters with data, or
      NaN when any of those counts is not a number. */
  function VerseSum(start: Option<int>, table: Table, xs: seq<int>): Option<int> {
    CountedSum(start, table, WithData(table, xs))
  }

  /** The start plus the counts of chapters already known to hold data. */
  function CountedSum(start: Option<int>, table: Table, w: seq<int>): Option<int>
    requires forall c :: c in w ==> HasData(table, c)
  {
    var cs := CountsOf(table, w);
    if start.Some? && cs.Some? then Some(start.value + Sum(cs.value)) else None
  }

  /** Adding one chapter with data adds its count, NaN absorbing. */
  lemma CountedSumStep(start: Option<int>, table: Table, w: seq<int>, c: int)
    requires forall x :: x in w ==> HasData(table, x)
    requires HasData(table, c)
    ensures CountedSum(start, table, w + [c]) ==
      Plus(CountedSum(start, table, w), NumberOf(VersesOf(table, c)))
  {
    CountsOfStep(table, w, c);
    var cs := CountsOf(table, w);
    var n := NumberOf(VersesOf(table, c));
    if start.Some? && cs.Some? && n.Some? {
      SumAppend(cs.value, [n.value]);
      assert Sum([n.value]) == n.value;
    }
  }

  /** The reference total grows by the count of each chapter with data. */
  lemma VerseSumStep(start: Option<int>, table: Table, xs: seq<int>)
    requires xs != []
    ensures var c := xs[|xs| - 1];
      VerseSum(start, table, xs) ==
        if HasData(table, c)
        then Plus(VerseSum(start, table, xs[..|xs| - 1]), NumberOf(VersesOf(table, c)))
        else VerseSum(start, table, xs[..|xs| - 1])
  {
    var c := xs[|xs| - 1];
    WithDataStep(table, xs);
    if HasData(table, c) {
      CountedSumStep(start, table, WithData(table, xs[..|xs| - 1]), c);
    }
  }

  // ---------------------------------------------------------------------
  // The chapter loop of one parasha (lines 115-135)

  datatype FileContent = Other | Metadata(meta: ParashaMetadata) | ChapterFile(stub: ChapterStub)

  /** The files, the chapters pushed, the running `totalVerses`, and
      whether the loop threw. */
  datatype Scan = Scan(files: map<string, FileContent>, available: seq<int>, total: Option<int>, threw: bool)

  /** One pass of the loop body; `missing` is `BooksMissing`, which makes
      the table lookup throw. */
  function ChapterStep(s: Scan, missing: bool, table: Table, bookId: string, parashaId: string, chapter: int): Scan {
    if s.threw then s
    else if missing then s.(threw := true)
    else if !HasData(table, chapter) then s
    else
      var count := VersesOf(table, chapter);
      var path := ChapterPath(bookId, parashaId, chapter);
      var files := if path in s.files then s.files
        else s.files[path := ChapterFile(ChapterStubOf(bookId, parashaId, chapter, count))];
      Scan(files, s.available + [chapter], Plus(s.total, NumberOf(count)), false)
  }

  /** The loop over `xs`. */
  function ChaptersScanned(s: Scan, missing: bool, table: Table, bookId: string, parashaId: string, xs: seq<int>): Scan
    decreases |xs|
  {
    if xs == [] then s
    else ChapterStep(ChaptersScanned(s, missing, table, bookId, parashaId, xs[..|xs| - 1]), missing, table, bookId, parashaId, xs[|xs| - 1])
  }

  /** Every entry of `f` is in `g` unchanged. */
  predicate Extends(f: map<string, FileContent>, g: map<string, FileContent>) {
    forall k :: k in f ==> k in g && g[k] == f[k]
  }

  lemma ExtendsTransitive(f: map<string, FileContent>, g: map<string, FileContent>, h: map<string, FileContent>)
    requires Extends(f, g) && Extends(g, h)
    ensures Extends(f, h)
  {
  }

  /** The chapter files the loop over `xs` makes sure of. */
  function ChapterPaths(table: Table, bookId: string, parashaId: string, xs: seq<int>): (ps: set<string>)
    ensures forall c :: c in xs && HasData(table, c) ==> ChapterPath(bookId, parashaId, c) in ps
    decreases |xs|
  {
    if xs == [] then {}
    else
      var c := xs[|xs| - 1];
      assert forall x :: x in xs ==> x in xs[..|xs| - 1] || x == c by {
        assert xs == xs[..|xs| - 1] + [c];
      }
      ChapterPaths(table, bookId, parashaId, xs[..|xs| - 1])
        + (if HasData(table, c) then {ChapterPath(bookId, parashaId, c)} else {})
  }

  /** Without `books` the loop throws at its first chapter, if there is
      one, having changed nothing. */
  lemma {:induction false} ScanMissing(s: Scan, table: Table, bookId: string, parashaId: string, xs: seq<int>)
    requires !s.threw
    ensures ChaptersScanned(s, true, table, bookId, parashaId, xs) == if xs == [] then s else s.(threw := true)
    decreases |xs|
  {
    if xs != [] {
      ScanMissing(s, table, bookId, parashaId, xs[..|xs| - 1]);
    }
  }

  /** With `books` there the loop never throws, keeps every file, adds
      exactly the files of the chapters with data and pushes exactly those
      chapters, in order. */
  lemma {:induction false} ScanShape(s: Scan, table: Table, bookId: string, parashaId: string, xs: seq<int>)
    requires !s.threw
    ensures var r := ChaptersScanned(s, false, table, bookId, parashaId, xs);
      && !r.threw
      && Extends(s.files, r.files)
      && r.files.Keys == s.files.Keys + ChapterPaths(table, bookId, parashaId, xs)
      && r.available == s.available + WithData(table, xs)
    decreases |xs|
  {
    if xs != [] {
      ScanShape(s, table, bookId, parashaId, xs[..|xs| - 1]);
      WithDataStep(table, xs);
    }
  }

  /** Without a throw the running total ends as the reference total. */
  lemma {:induction false} ScanTotal(s: Scan, table: Table, bookId: string, parashaId: string, xs: seq<int>)
    requires !s.threw
    ensures ChaptersScanned(s, false, table, bookId, parashaId, xs).total == VerseSum(s.total, table, xs)
    decreases |xs|
  {
    if xs != [] {
      ScanTotal(s, table, bookId, parashaId, xs[..|xs| - 1]);
      ScanShape(s, table, bookId, parashaId, xs[..|xs| - 1]);
      VerseSumStep(s.total, table, xs);
    }
  }

  /** Among chapters numbered from zero up, a chapter's file is among
      the files of a list only when the chapter is in it. */
  lemma {:induction false} ChapterPathMember(table: Table, bookId: string, parashaId: string, xs: seq<int>, c: int)
    requires forall x :: x in xs ==> x >= 0
    requires c >= 0
    ensures ChapterPath(bookId, parashaId, c) in ChapterPaths(table, bookId, parashaId, xs) ==> c in xs
    decreases |xs|
  {
    if xs != [] {
      var init := xs[..|xs| - 1];
      var last := xs[|xs| - 1];
      assert forall x :: x in init ==> x in xs;
      assert last in xs;
      ChapterPathMember(table, bookId, parashaId, init, c);
      if ChapterPath(bookId, parashaId, c) == ChapterPath(bookId, parashaId, last) {
        ChapterPathInjective(bookId, parashaId, c, last);
      }
    }
  }

  lemma ScanUnfold(s: Scan, table: Table, bookId: string, parashaId: string, xs: seq<int>)
    requires xs != []
    ensures ChaptersScanned(s, false, table, bookId, parashaId, xs) ==
      ChapterStep(ChaptersScanned(s, false, table, bookId, parashaId, xs[..|xs| - 1]), false, table, bookId, parashaId, xs[|xs| - 1])
  {
  }

  /** One pass adds at most the file of its own chapter. */
  lemma ChapterStepFiles(s: Scan, table: Table, bookId: string, parashaId: string, c: int)
    requires !s.threw
    ensures var path := ChapterPath(bookId, parashaId, c);
      ChapterStep(s, false, table, bookId, parashaId, c).files ==
        if HasData(table, c) && path !in s.files
        then s.files[path := ChapterFile(ChapterStubOf(bookId, parashaId, c, VersesOf(table, c)))]
        else s.files
  {
  }

  /** A chapter with data whose file was missing gets the stub built from
      its own verse count (chapters numbered from zero up, so that each
      has its own file). */
  lemma {:induction false} ScanNewChapter(s: Scan, table: Table, bookId: string, parashaId: string, xs: seq<int>, c: int)
    requires !s.threw
    requires forall j, k :: 0 <= j < k < |xs| ==> xs[j] < xs[k]
    requires forall x :: x in xs ==> x >= 0
    requires c in xs && HasData(table, c)
    requires ChapterPath(bookId, parashaId, c) !in s.files
    ensures var r := ChaptersScanned(s, false, table, bookId, parashaId, xs);
      var path := ChapterPath(bookId, parashaId, c);
      path in r.files && r.files[path] == ChapterFile(ChapterStubOf(bookId, parashaId, c, VersesOf(table, c)))
    decreases |xs|
  {
    var init := xs[..|xs| - 1];
    var last := xs[|xs| - 1];
    var path := ChapterPath(bookId, parashaId, c);
    var prev := ChaptersScanned(s, false, table, bookId, parashaId, init);
    ScanUnfold(s, table, bookId, parashaId, xs);
    ScanShape(s, table, bookId, parashaId, init);
    ChapterStepFiles(prev, table, bookId, parashaId, last);
    AscendingInit(xs, c);
    if c == last {
      ChapterPathMember(table, bookId, parashaId, init, c);
    } else {
      ScanNewChapter(s, table, bookId, parashaId, init, c);
      if ChapterPath(bookId, parashaId, last) == path {
        ChapterPathInjective(bookId, parashaId, c, last);
      }
    }
  }

  /** Dropping the last of an ascending, non-negative sequence keeps it so,
      and leaves only smaller numbers; any other member stays. */
  lemma AscendingInit(xs: seq<int>, c: int)
    requires forall j, k :: 0 <= j < k < |xs| ==> xs[j] < xs[k]
    requires forall x :: x in xs ==> x >= 0
    requires c in xs
    ensures var init := xs[..|xs| - 1];
      && (forall j, k :: 0 <= j < k < |init| ==> init[j] < init[k])
      && (forall x :: x in init ==> 0 <= x < xs[|xs| - 1])
      && (c != xs[|xs| - 1] ==> c in init)
      && xs[|xs| - 1] >= 0
  {
    var init := xs[..|xs| - 1];
    assert forall j :: 0 <= j < |init| ==> init[j] == xs[j];
    forall x | x in init
      ensures 0 <= x < xs[|xs| - 1]
    {
      var j :| 0 <= j < |init| && init[j] == x;
      assert xs[j] == x && xs[j] in xs;
    }
    assert xs[|xs| - 1] in xs;
    if c != xs[|xs| - 1] {
      var j :| 0 <= j < |xs| && xs[j] == c;
      assert init[j] == c;
    }
  }

  // ---------------------------------------------------------------------
  // One parasha (lines 106-146)

  /** The files, and whether the run has thrown. */
  datatype Run = Run(files: map<string, FileContent>, threw: bool)

  /** The chapter loop of a parasha, starting from the empty lists and
      zero total of `InitialMetadata`. */
  function ParashaScan(files: map<string, FileContent>, torah: Json, bookId: string, id: string, p: Json): Scan {
    ChaptersScanned(Scan(files, [], Some(0), false), BooksMissing(torah), TableOf(torah, bookId), bookId, id, ChapterRange(p))
  }

  /** Lines 137-145 after a loop that did not throw: the metadata with the
      loop's chapters and total, written unless the file exists. */
  function MetadataWritten(sc: Scan, bookId: string, id: string, p: Json): map<string, FileContent> {
    var path := MetadataPath(bookId, id);
    var meta := InitialMetadata(bookId, id, p).(chapters := sc.available, availableChapters := sc.available, totalVerses := sc.total);
    if path in sc.files then sc.files else sc.files[path := Metadata(meta)]
  }

  /** The `forEach` callback for one parasha entry. */
  function ParashaGenerated(files: map<string, FileContent>, torah: Json, bookId: string, p: Json): Run {
    match ParashaId(p)
    case None => Run(files, true)
    case Some(id) =>
      var sc := ParashaScan(files, torah, bookId, id, p);
      if sc.threw then Run(sc.files, true) else Run(MetadataWritten(sc, bookId, id, p), false)
  }

  /** The entry has no string id, or it has chapters to look up and there
      is no `books` table. */
  predicate ParashaThrows(torah: Json, p: Json) {
    ParashaId(p).None? || (ChapterRange(p) != [] && BooksMissing(torah))
  }

  /** The files one parasha makes sure of: its metadata and the files of
      its chapters with data; none when it throws. */
  function ParashaPaths(torah: Json, bookId: string, p: Json): set<string> {
    if ParashaThrows(torah, p) then {}
    else
      var id := ParashaId(p).value;
      {MetadataPath(bookId, id)} + ChapterPaths(TableOf(torah, bookId), bookId, id, ChapterRange(p))
  }

  /** The metadata a parasha gets, stated without the loop: its chapters
      with data, in range order, and the reference total of their counts. */
  function MetadataOf(torah: Json, bookId: string, id: string, p: Json): ParashaMetadata {
    var w := WithData(TableOf(torah, bookId), ChapterRange(p));
    InitialMetadata(bookId, id, p).(chapters := w, availableChapters := w,
      totalVerses := VerseSum(Some(0), TableOf(torah, bookId), ChapterRange(p)))
  }

  /** The metadata file is never among the chapter files. */
  lemma {:induction false} MetadataNotInChapterPaths(table: Table, bookId: string, id: string, xs: seq<int>)
    ensures MetadataPath(bookId, id) !in ChapterPaths(table, bookId, id, xs)
    decreases |xs|
  {
    if xs != [] {
      MetadataNotInChapterPaths(table, bookId, id, xs[..|xs| - 1]);
      MetadataIsNotAChapter(bookId, id, xs[|xs| - 1]);
    }
  }

  /** Writing the metadata adds at most its own file. */
  lemma MetadataWrittenShape(sc: Scan, bookId: string, id: string, p: Json)
    ensures var w := MetadataWritten(sc, bookId, id, p);
      Extends(sc.files, w) && w.Keys == sc.files.Keys + {MetadataPath(bookId, id)}
  {
  }

  /** A parasha keeps every file, adds exactly its own files, and throws
      exactly as `ParashaThrows` says, having then changed nothing. */
  lemma ParashaShape(files: map<string, FileContent>, torah: Json, bookId: string, p: Json)
    ensures var r := ParashaGenerated(files, torah, bookId, p);
      && Extends(files, r.files)
      && r.threw == ParashaThrows(torah, p)
      && r.files.Keys == files.Keys + ParashaPaths(torah, bookId, p)
  {
    if ParashaId(p).Some? {
      var id := ParashaId(p).value;
      var xs := ChapterRange(p);
      var table := TableOf(torah, bookId);
      var s := Scan(files, [], Some(0), false);
      var sc := ParashaScan(files, torah, bookId, id, p);
      assert sc == ChaptersScanned(s, BooksMissing(torah), table, bookId, id, xs);
      if BooksMissing(torah) {
        ScanMissing(s, table, bookId, id, xs);
        assert sc.threw <==> xs != [];
      } else {
        ScanShape(s, table, bookId, id, xs);
        assert !sc.threw;
      }
      assert ParashaThrows(torah, p) <==> sc.threw;
      if !sc.threw {
        MetadataWrittenShape(sc, bookId, id, p);
      }
    }
  }

  /** A parasha whose metadata file was missing gets the metadata of
      `MetadataOf`. */
  lemma ParashaNewMetadata(files: map<string, FileContent>, torah: Json, bookId: string, p: Json)
    requires !ParashaThrows(torah, p)
    requires MetadataPath(bookId, ParashaId(p).value) !in files
    ensures var r := ParashaGenerated(files, torah, bookId, p);
      var id := ParashaId(p).value;
      MetadataPath(bookId, id) in r.files && r.files[MetadataPath(bookId, id)] == Metadata(MetadataOf(torah, bookId, id, p))
  {
    var id := ParashaId(p).value;
    var s := Scan(files, [], Some(0), false);
    var table := TableOf(torah, bookId);
    var xs := ChapterRange(p);
    var sc := ParashaScan(files, torah, bookId, id, p);
    if BooksMissing(torah) {
      assert xs == [];
      ScanMissing(s, table, bookId, id, xs);
      assert sc == s;
      assert WithData(table, xs) == [];
      assert CountsOf(table, []) == Some([]);
    } else {
      ScanShape(s, table, bookId, id, xs);
      ScanTotal(s, table, bookId, id, xs);
      MetadataNotInChapterPaths(table, bookId, id, xs);
    }
    MetadataWrittenNew(sc, torah, bookId, id, p);
  }

  /** A scan that found the chapters with data and their total, and left
      no metadata file, gets the metadata of `MetadataOf` written. */
  lemma MetadataWrittenNew(sc: Scan, torah: Json, bookId: string, id: string, p: Json)
    requires MetadataPath(bookId, id) !in sc.files
    requires sc.available == WithData(TableOf(torah, bookId), ChapterRange(p))
    requires sc.total == VerseSum(Some(0), TableOf(torah, bookId), ChapterRange(p))
    ensures var w := MetadataWritten(sc, bookId, id, p);
      MetadataPath(bookId, id) in w && w[MetadataPath(bookId, id)] == Metadata(MetadataOf(torah, bookId, id, p))
  {
  }

  /** The chapter list of the metadata holds exactly the chapters of the
      range that have data. */
  lemma MetadataChapters(torah: Json, bookId: string, id: string, p: Json)
    ensures var m := MetadataOf(torah, bookId, id, p);
      && m.chapters == m.availableChapters
      && forall c :: c in m.availableChapters <==>
            && NumericBounds(p)
            && Field(p, "startChapter").value.n <= c <= ToNumber(Field(p, "endChapter")).value
            && HasData(TableOf(torah, bookId), c)
  {
    var w := WithData(TableOf(torah, bookId), ChapterRange(p));
    assert MetadataOf(torah, bookId, id, p).availableChapters == w;
  }

  /** ... and lists them in ascending order. */
  lemma MetadataChaptersAscending(torah: Json, bookId: string, id: string, p: Json)
    ensures Ascending(MetadataOf(torah, bookId, id, p).availableChapters)
  {
    var t := TableOf(torah, bookId);
    var xs := ChapterRange(p);
    WithDataAscending(t, xs);
    var w := WithData(t, xs);
    assert MetadataOf(torah, bookId, id, p).availableChapters == w;
  }

  /** When every count is a number, the metadata's total is their sum. */
  lemma MetadataTotal(torah: Json, bookId: string, id: string, p: Json)
    ensures var table := TableOf(torah, bookId);
      var cs := CountsOf(table, WithData(table, ChapterRange(p)));
      MetadataOf(torah, bookId, id, p).totalVerses == if cs.Some? then Some(Sum(cs.value)) else None
  {
    var table := TableOf(torah, bookId);
    var w := WithData(table, ChapterRange(p));
    assert MetadataOf(torah, bookId, id, p).totalVerses == CountedSum(Some(0), table, w);
  }

  /** Writing the metadata leaves every other file as the loop left it. */
  lemma MetadataWrittenKeeps(sc: Scan, bookId: string, id: string, p: Json, path: string)
    requires path in sc.files && path != MetadataPath(bookId, id)
    ensures var w := MetadataWritten(sc, bookId, id, p);
      path in w && w[path] == sc.files[path]
  {
  }

  /** A chapter with data whose file was missing gets its stub. */
  lemma ParashaNewChapter(files: map<string, FileContent>, torah: Json, bookId: string, p: Json, c: int)
    requires !ParashaThrows(torah, p)
    requires forall x :: x in ChapterRange(p) ==> x >= 0
    requires c in ChapterRange(p) && HasData(TableOf(torah, bookId), c)
    requires ChapterPath(bookId, ParashaId(p).value, c) !in files
    ensures var r := ParashaGenerated(files, torah, bookId, p);
      var path := ChapterPath(bookId, ParashaId(p).value, c);
      path in r.files && r.files[path] == ChapterFile(ChapterStubOf(bookId, ParashaId(p).value, c, VersesOf(TableOf(torah, bookId), c)))
  {
    var id := ParashaId(p).value;
    var xs := ChapterRange(p);
    var sc := ParashaScan(files, torah, bookId, id, p);
    assert !BooksMissing(torah);
    ScanShape(Scan(files, [], Some(0), false), TableOf(torah, bookId), bookId, id, xs);
    ScanNewChapter(Scan(files, [], Some(0), false), TableOf(torah, bookId), bookId, id, xs, c);
    MetadataIsNotAChapter(bookId, id, c);
    MetadataWrittenKeeps(sc, bookId, id, p, ChapterPath(bookId, id, c));
    assert ParashaGenerated(files, torah, bookId, p) == Run(MetadataWritten(sc, bookId, id, p), false);
  }

  // ---------------------------------------------------------------------
  // One book (lines 94-147)

  /** `this.parashas[bookId]` as the book's loop sees it. */
  datatype Lookup = LookupThrew | NotFound | Found(items: seq<Json>)

  /** Indexing a null parasha table throws; a falsy entry ends the book
      with an error message; an entry that is not an array has no
      `forEach` and throws. */
  function BookParashas(parashas: Json, bookId: string): (l: Lookup)
    ensures l.LookupThrew? <==> parashas.JNull? || (Truthy(Field(parashas, bookId)) && !IsArray(Field(parashas, bookId)))
    ensures l.NotFound? <==> !parashas.JNull? && !Truthy(Field(parashas, bookId))
    ensures l.Found? ==> l.items == Elements(Field(parashas, bookId))
  {
    if parashas.JNull? then LookupThrew
    else
      var v := Field(parashas, bookId);
      if !Truthy(v) then NotFound
      else if IsArray(v) then Found(v.value.items)
      else LookupThrew
  }

  /** The `forEach` over the entries, stopping at the first throw. */
  function ParashasGenerated(r: Run, torah: Json, bookId: string, items: seq<Json>): Run
    decreases |items|
  {
    if items == [] then r
    else
      var prev := ParashasGenerated(r, torah, bookId, items[..|items| - 1]);
      if prev.threw then prev else ParashaGenerated(prev.files, torah, bookId, items[|items| - 1])
  }

  /** Some entry throws. */
  predicate SomeParashaThrows(torah: Json, items: seq<Json>) {
    exists i :: 0 <= i < |items| && ParashaThrows(torah, items[i])
  }

  /** The files of the entries up to the first one that throws. */
  function ParashasPaths(torah: Json, bookId: string, items: seq<Json>): set<string>
    decreases |items|
  {
    if items == [] then {}
    else
      var init := items[..|items| - 1];
      if SomeParashaThrows(torah, init) then ParashasPaths(torah, bookId, init)
      else ParashasPaths(torah, bookId, init) + ParashaPaths(torah, bookId, items[|items| - 1])
  }

  lemma SomeParashaThrowsStep(torah: Json, items: seq<Json>)
    requires items != []
    ensures SomeParashaThrows(torah, items) <==>
      SomeParashaThrows(torah, items[..|items| - 1]) || ParashaThrows(torah, items[|items| - 1])
  {
    var init := items[..|items| - 1];
    if SomeParashaThrows(torah, init) {
      var i :| 0 <= i < |init| && ParashaThrows(torah, init[i]);
      assert items[i] == init[i];
    }
    if SomeParashaThrows(torah, items) {
      var i :| 0 <= i < |items| && ParashaThrows(torah, items[i]);
      if i < |init| {
        assert items[i] == init[i];
      }
    }
  }

  /** The entries throw, and stop the loop, exactly when one of them does. */
  lemma {:induction false} ParashasThrew(r: Run, torah: Json, bookId: string, items: seq<Json>)
    requires !r.threw
    ensures ParashasGenerated(r, torah, bookId, items).threw == SomeParashaThrows(torah, items)
    decreases |items|
  {
    if items != [] {
      var prev := ParashasGenerated(r, torah, bookId, items[..|items| - 1]);
      ParashasThrew(r, torah, bookId, items[..|items| - 1]);
      SomeParashaThrowsStep(torah, items);
      if !prev.threw {
        ParashaShape(prev.files, torah, bookId, items[|items| - 1]);
      }
    }
  }

  /** The entries keep every file and add exactly their own files. */
  lemma {:induction false} ParashasShape(r: Run, torah: Json, bookId: string, items: seq<Json>)
    requires !r.threw
    ensures var out := ParashasGenerated(r, torah, bookId, items);
      && Extends(r.files, out.files)
      && out.files.Keys == r.files.Keys + ParashasPaths(torah, bookId, items)
    decreases |items|
  {
    if items != [] {
      var init := items[..|items| - 1];
      var prev := ParashasGenerated(r, torah, bookId, init);
      ParashasShape(r, torah, bookId, init);
      ParashasThrew(r, torah, bookId, init);
      if !prev.threw {
        var next := ParashaGenerated(prev.files, torah, bookId, items[|items| - 1]);
        ParashaShape(prev.files, torah, bookId, items[|items| - 1]);
        ExtendsTransitive(r.files, prev.files, next.files);
      }
    }
  }

  /** `generateBookStructure(bookId)`; a book without parashas is left as
      it is. */
  function BookGenerated(files: map<string, FileContent>, parashas: Json, torah: Json, bookId: string): (r: Run)
    ensures BookParashas(parashas, bookId).NotFound? ==> r == Run(files, false)
    ensures BookParashas(parashas, bookId).LookupThrew? ==> r == Run(files, true)
  {
    match BookParashas(parashas, bookId)
    case LookupThrew => Run(files, true)
    case NotFound => Run(files, false)
    case Found(items) => ParashasGenerated(Run(files, false), torah, bookId, items)
  }

  predicate BookThrows(parashas: Json, torah: Json, bookId: string) {
    match BookParashas(parashas, bookId)
    case LookupThrew => true
    case NotFound => false
    case Found(items) => SomeParashaThrows(torah, items)
  }

  function BookPaths(parashas: Json, torah: Json, bookId: string): set<string> {
    match BookParashas(parashas, bookId)
    case Found(items) => ParashasPaths(torah, bookId, items)
    case _ => {}
  }

  lemma BookShape(files: map<string, FileContent>, parashas: Json, torah: Json, bookId: string)
    ensures var r := BookGenerated(files, parashas, torah, bookId);
      && Extends(files, r.files)
      && r.threw == BookThrows(parashas, torah, bookId)
      && r.files.Keys == files.Keys + BookPaths(parashas, torah, bookId)
  {
    if BookParashas(parashas, bookId).Found? {
      ParashasShape(Run(files, false), torah, bookId, BookParashas(parashas, bookId).items);
      ParashasThrew(Run(files, false), torah, bookId, BookParashas(parashas, bookId).items);
    }
  }

  // ---------------------------------------------------------------------
  // All books (lines 149-160)

  /** The books of `ids` in turn, stopping at the first throw. */
  function BooksGenerated(r: Run, parashas: Json, torah: Json, ids: seq<string>): Run
    decreases |ids|
  {
    if ids == [] then r
    else
      var prev := BooksGenerated(r, parashas, torah, ids[..|ids| - 1]);
      if prev.threw then prev else BookGenerated(prev.files, parashas, torah, ids[|ids| - 1])
  }

  predicate SomeBookThrows(parashas: Json, torah: Json, ids: seq<string>) {
    exists i :: 0 <= i < |ids| && BookThrows(parashas, torah, ids[i])
  }

  function BooksPaths(parashas: Json, torah: Json, ids: seq<string>): set<string>
    decreases |ids|
  {
    if ids == [] then {}
    else
      var init := ids[..|ids| - 1];
      if SomeBookThrows(parashas, torah, init) then BooksPaths(parashas, torah, init)
      else BooksPaths(parashas, torah, init) + BookPaths(parashas, torah, ids[|ids| - 1])
  }

  lemma SomeBookThrowsStep(parashas: Json, torah: Json, ids: seq<string>)
    requires ids != []
    ensures SomeBookThrows(parashas, torah, ids) <==>
      SomeBookThrows(parashas, torah, ids[..|ids| - 1]) || BookThrows(parashas, torah, ids[|ids| - 1])
  {
    var init := ids[..|ids| - 1];
    if SomeBookThrows(parashas, torah, init) {
      var i :| 0 <= i < |init| && BookThrows(parashas, torah, init[i]);
      assert ids[i] == init[i];
    }
    if SomeBookThrows(parashas, torah, ids) {
      var i :| 0 <= i < |ids| && BookThrows(parashas, torah, ids[i]);
      if i < |init| {
        assert ids[i] == init[i];
      }
    }
  }

  /** The books throw, and stop the loop, exactly when one of them does. */
  lemma {:induction false} BooksThrew(r: Run, parashas: Json, torah: Json, ids: seq<string>)
    requires !r.threw
    ensures BooksGenerated(r, parashas, torah, ids).threw == SomeBookThrows(parashas, torah, ids)
    decreases |ids|
  {
    if ids != [] {
      var prev := BooksGenerated(r, parashas, torah, ids[..|ids| - 1]);
      BooksThrew(r, parashas, torah, ids[..|ids| - 1]);
      SomeBookThrowsStep(parashas, torah, ids);
      if !prev.threw {
        BookShape(prev.files, parashas, torah, ids[|ids| - 1]);
      }
    }
  }

  /** The books keep every file and add exactly their own files. */
  lemma {:induction false} BooksShape(r: Run, parashas: Json, torah: Json, ids: seq<string>)
    requires !r.threw
    ensures var out := BooksGenerated(r, parashas, torah, ids);
      && Extends(r.files, out.files)
      && out.files.Keys == r.files.Keys + BooksPaths(parashas, torah, ids)
    decreases |ids|
  {
    if ids != [] {
      var init := ids[..|ids| - 1];
      var prev := BooksGenerated(r, parashas, torah, init);
      BooksShape(r, parashas, torah, init);
      BooksThrew(r, parashas, torah, init);
      if !prev.threw {
        var next := BookGenerated(prev.files, parashas, torah, ids[|ids| - 1]);
        BookShape(prev.files, parashas, torah, ids[|ids| - 1]);
        ExtendsTransitive(r.files, prev.files, next.files);
      }
    }
  }

  /** `generateAllBooks` up to the statistics. */
  function AllGenerated(files: map<string, FileContent>, parashas: Json, torah: Json): Run {
    BooksGenerated(Run(files, false), parashas, torah, BookIds)
  }

  /** Nothing the generator finds is ever overwritten. */
  lemma ExistingFilesKept(files: map<string, FileContent>, parashas: Json, torah: Json)
    ensures Extends(files, AllGenerated(files, parashas, torah).files)
  {
    BooksShape(Run(files, false), parashas, torah, BookIds);
  }

  /** Running the generator a second time writes nothing and throws just
      as the first run did. */
  lemma RerunChangesNothing(files: map<string, FileContent>, parashas: Json, torah: Json)
    ensures var first := AllGenerated(files, parashas, torah);
      AllGenerated(first.files, parashas, torah) == first
  {
    var first := AllGenerated(files, parashas, torah);
    var second := AllGenerated(first.files, parashas, torah);
    BooksShape(Run(files, false), parashas, torah, BookIds);
    BooksShape(Run(first.files, false), parashas, torah, BookIds);
    BooksThrew(Run(files, false), parashas, torah, BookIds);
    BooksThrew(Run(first.files, false), parashas, torah, BookIds);
    assert second.files.Keys == first.files.Keys;
    assert second.files == first.files;
  }

  /** Once the books' loop has thrown, the later books change nothing. */
  lemma {:induction false} BooksAfterThrow(r: Run, parashas: Json, torah: Json, ids: seq<string>, n: nat)
    requires n <= |ids| && BooksGenerated(r, parashas, torah, ids[..n]).threw
    ensures BooksGenerated(r, parashas, torah, ids) == BooksGenerated(r, parashas, torah, ids[..n])
    decreases |ids| - n
  {
    if n < |ids| {
      var init := ids[..|ids| - 1];
      assert init[..n] == ids[..n];
      BooksAfterThrow(r, parashas, torah, init, n);
    } else {
      assert ids[..n] == ids;
    }
  }

  /** Once a book's loop has thrown, the later parashas change nothing. */
  lemma {:induction false} ParashasAfterThrow(r: Run, torah: Json, bookId: string, items: seq<Json>, n: nat)
    requires n <= |items| && ParashasGenerated(r, torah, bookId, items[..n]).threw
    ensures ParashasGenerated(r, torah, bookId, items) == ParashasGenerated(r, torah, bookId, items[..n])
    decreases |items| - n
  {
    if n < |items| {
      var init := items[..|items| - 1];
      assert init[..n] == items[..n];
      ParashasAfterThrow(r, torah, bookId, init, n);
    } else {
      assert items[..n] == items;
    }
  }

  // ---------------------------------------------------------------------
  // The statistics (lines 162-192)

  datatype Stats = Stats(folders: int, files: int)

  /** The number of chapters from `startChapter` to `endChapter`, counted
      without a loop. */
  function Span(p: Json): nat {
    match (Field(p, "startChapter"), ToNumber(Field(p, "endChapter")))
    case (Some(JNum(lo)), Some(hi)) => if lo <= hi then hi - lo + 1 else 0
    case _ => 0
  }

  /** The counting loop visits `Span(p)` chapters. */
  lemma RangeLength(p: Json)
    ensures |ChapterRange(p)| == Span(p)
  {
  }

  /** `bookFiles`: one metadata file per entry plus one per chapter it
      spans, entry by entry. */
  function BookFiles(items: seq<Json>): int
    decreases |items|
  {
    if items == [] then 0
    else BookFiles(items[..|items| - 1]) + 1 + |ChapterRange(items[|items| - 1])|
  }

  lemma BookFilesStep(items: seq<Json>, i: nat)
    requires i < |items|
    ensures items[..i + 1] == items[..i] + [items[i]]
    ensures BookFiles(items[..i + 1]) == BookFiles(items[..i]) + 1 + |ChapterRange(items[i])|
  {
    assert items[..i + 1][..i] == items[..i];
  }

  function Spans(items: seq<Json>): (r: seq<int>)
    ensures |r| == |items| && forall i :: 0 <= i < |items| ==> r[i] == Span(items[i])
  {
    seq(|items|, i requires 0 <= i < |items| => Span(items[i]))
  }

  /** A book's file count is its number of parashas plus the sum of
      `endChapter - startChapter + 1` over them (0 for an empty range). */
  lemma {:induction false} BookFilesFormula(items: seq<Json>)
    ensures BookFiles(items) == |items| + Sum(Spans(items))
    decreases |items|
  {
    if items != [] {
      var init, last := items[..|items| - 1], items[|items| - 1];
      BookFilesFormula(init);
      RangeLength(last);
      SpansSnoc(items);
      SumAppend(Spans(init), [Span(last)]);
      assert Sum([Span(last)]) == Span(last);
    }
  }

  lemma SpansSnoc(items: seq<Json>)
    requires items != []
    ensures Spans(items) == Spans(items[..|items| - 1]) + [Span(items[|items| - 1])]
  {
  }

  /** One book's line: `bookParashas.length` folders and `bookFiles`
      files; a null entry makes `parasha.startChapter` throw. */
  function BookStatistics(items: seq<Json>): Option<Stats> {
    if JNull in items then None else Some(Stats(|items|, BookFiles(items)))
  }

  /** The totals over `ids`, or None when the statistics throw. */
  function StatisticsOf(parashas: Json, ids: seq<string>): Option<Stats>
    decreases |ids|
  {
    if ids == [] then Some(Stats(0, 0))
    else AddBook(StatisticsOf(parashas, ids[..|ids| - 1]), parashas, ids[|ids| - 1])
  }

  /** The totals after one more book: NotFound adds nothing, a throw or a
      null entry loses everything. */
  function AddBook(prev: Option<Stats>, parashas: Json, id: string): Option<Stats> {
    if prev.None? then None
    else
      match BookParashas(parashas, id)
      case LookupThrew => None
      case NotFound => prev
      case Found(items) =>
        var b := BookStatistics(items);
        if b.None? then None
        else Some(Stats(prev.value.folders + b.value.folders, prev.value.files + b.value.files))
  }

  /** The statistics of a prefix one longer. */
  lemma StatisticsStep(parashas: Json, ids: seq<string>, i: nat)
    requires i < |ids|
    ensures StatisticsOf(parashas, ids[..i + 1]) == AddBook(StatisticsOf(parashas, ids[..i]), parashas, ids[i])
  {
    assert ids[..i + 1][..i] == ids[..i];
  }

  /** A book that generated without throwing has no null entry. */
  lemma NoThrowNoNull(torah: Json, items: seq<Json>)
    requires !SomeParashaThrows(torah, items)
    ensures JNull !in items
  {
    forall i | 0 <= i < |items|
      ensures items[i] != JNull
    {
      assert !ParashaThrows(torah, items[i]);
    }
  }

  /** When the books generate without throwing, so do the statistics. */
  lemma {:induction false} StatisticsDefined(parashas: Json, torah: Json, ids: seq<string>)
    requires !SomeBookThrows(parashas, torah, ids)
    ensures StatisticsOf(parashas, ids).Some?
    decreases |ids|
  {
    if ids != [] {
      var init := ids[..|ids| - 1];
      SomeBookThrowsStep(parashas, torah, ids);
      StatisticsDefined(parashas, torah, init);
      var l := BookParashas(parashas, ids[|ids| - 1]);
      if l.Found? {
        NoThrowNoNull(torah, l.items);
      }
    }
  }

  /** A run of the five books that does not throw goes on to print its
      statistics without throwing. */
  lemma AllBooksStatistics(files: map<string, FileContent>, parashas: Json, torah: Json)
    requires !AllGenerated(files, parashas, torah).threw
    ensures StatisticsOf(parashas, BookIds).Some?
  {
    BooksThrew(Run(files, false), parashas, torah, BookIds);
    StatisticsDefined(parashas, torah, BookIds);
  }

  // ---------------------------------------------------------------------
  // The generator

  /** `TorahStructureGenerator`: the three metadata files as loaded (null
      when a file could not be read) and the files under the data
      directory. `books` is loaded but never consulted. */
  class TorahStructureGenerator {
    const parashas: Json
    const torahStructure: Json
    const books: Json
    var files: map<string, FileContent>

    constructor (parashas: Json, torahStructure: Json, books: Json, files: map<string, FileContent>)
      ensures this.parashas == parashas && this.torahStructure == torahStructure && this.books == books
      ensures this.files == files
    {
      this.parashas := parashas;
      this.torahStructure := torahStructure;
      this.books := books;
      this.files := files;
    }

    /** `createChapterStub`, with its verse loop. */
    static method CreateChapterStub(bookId: string, parashaId: string, chapter: int, count: Option<Json>)
      returns (stub: ChapterStub)
      ensures stub == ChapterStubOf(bookId, parashaId, chapter, count)
    {
      var verses: seq<StubVerse> := [];
      var verse := 1;
      while ToNumber(count).Some? && verse <= ToNumber(count).value
        invariant 1 <= verse <= VerseLimit(count) + 1
        invariant verses == StubVerses(verse - 1)
        decreases VerseLimit(count) + 1 - verse
      {
        verses := verses + [StubVerse(verse, [DavarWord])];
        verse := verse + 1;
      }
      stub := ChapterStub(bookId, parashaId, chapter, count, verses);
    }

    /** The chapter loop of lines 115-135 over the chapters `xs`. */
    method ScanChapters(bookId: string, parashaId: string, xs: seq<int>)
      returns (available: seq<int>, total: Option<int>, threw: bool)
      modifies this
      ensures Scan(files, available, total, threw) ==
        ChaptersScanned(Scan(old(files), [], Some(0), false), BooksMissing(torahStructure),
          TableOf(torahStructure, bookId), bookId, parashaId, xs)
    {
      available, total, threw := [], Some(0), false;
      ghost var s := Scan(files, [], Some(0), false);
      for i := 0 to |xs|
        invariant BooksMissing(torahStructure) ==> i == 0
        invariant Scan(files, available, total, threw) ==
          ChaptersScanned(s, BooksMissing(torahStructure), TableOf(torahStructure, bookId), bookId, parashaId, xs[..i])
      {
        var chapter := xs[i];
        assert xs[..i + 1][..i] == xs[..i];
        if BooksMissing(torahStructure) {
          threw := true;
          ScanMissing(s, TableOf(torahStructure, bookId), bookId, parashaId, xs);
          return;
        }
        var entry := ChapterEntry(torahStructure, bookId, chapter);
        if Truthy(entry) {
          var count := Field(entry.value, "verses");
          available := available + [chapter];
          total := Plus(total, NumberOf(count));
          var path := ChapterPath(bookId, parashaId, chapter);
          if path !in files {
            var stub := CreateChapterStub(bookId, parashaId, chapter, count);
            files := files[path := ChapterFile(stub)];
          }
        }
      }
      assert xs[..|xs|] == xs;
    }

    /** One parasha entry: lines 107-145. */
    method GenerateParasha(bookId: string, p: Json) returns (threw: bool)
      modifies this
      ensures Run(files, threw) == ParashaGenerated(old(files), torahStructure, bookId, p)
    {
      var id := ParashaId(p);
      if id.None? {
        return true;
      }
      var meta := InitialMetadata(bookId, id.value, p);
      var available, total, t := ScanChapters(bookId, id.value, ChapterRange(p));
      if t {
        return true;
      }
      meta := meta.(chapters := available, availableChapters := available, totalVerses := total);
      var path := MetadataPath(bookId, id.value);
      if path !in files {
        files := files[path := Metadata(meta)];
      }
      threw := false;
    }

    /** `generateBookStructure(bookId)`. */
    method GenerateBookStructure(bookId: string) returns (threw: bool)
      modifies this
      ensures Run(files, threw) == BookGenerated(old(files), parashas, torahStructure, bookId)
    {
      var lookup := BookParashas(parashas, bookId);
      if lookup.LookupThrew? {
        return true;
      }
      if lookup.NotFound? {
        return false;
      }
      var items := lookup.items;
      ghost var r := Run(files, false);
      for i := 0 to |items|
        invariant Run(files, false) == ParashasGenerated(r, torahStructure, bookId, items[..i])
      {
        assert items[..i + 1][..i] == items[..i];
        var t := GenerateParasha(bookId, items[i]);
        if t {
          ParashasAfterThrow(r, torahStructure, bookId, items, i + 1);
          return true;
        }
      }
      assert items[..|items|] == items;
      threw := false;
    }

    /** `generateAllBooks`: the five books, then the statistics; None when
        a book throws, which ends the script before the statistics. */
    method GenerateAllBooks() returns (stats: Option<Stats>)
      modifies this
      ensures var g := AllGenerated(old(files), parashas, torahStructure);
        files == g.files && stats == if g.threw then None else StatisticsOf(parashas, BookIds)
    {
      ghost var r := Run(files, false);
      for i := 0 to |BookIds|
        invariant Run(files, false) == BooksGenerated(r, parashas, torahStructure, BookIds[..i])
      {
        assert BookIds[..i + 1][..i] == BookIds[..i];
        var t := GenerateBookStructure(BookIds[i]);
        if t {
          BooksAfterThrow(r, parashas, torahStructure, BookIds, i + 1);
          return None;
        }
      }
      assert BookIds[..|BookIds|] == BookIds;
      stats := PrintStatistics();
    }

    /** The inner loop of lines 181-183: how many chapter files an entry
        adds to the count. */
    static method CountChapters(p: Json) returns (n: int)
      ensures n == Span(p)
    {
      n := 0;
      var start, end := Field(p, "startChapter"), ToNumber(Field(p, "endChapter"));
      if start.Some? && start.value.JNum? && end.Some? {
        var chapter := start.value.n;
        while chapter <= end.value
          invariant start.value.n <= chapter
          invariant chapter <= end.value + 1 || chapter == start.value.n
          invariant n == chapter - start.value.n
          decreases end.value - chapter
        {
          n := n + 1;
          chapter := chapter + 1;
        }
      }
    }

    /** One book's counts: lines 174-184. */
    static method CountBook(items: seq<Json>) returns (s: Option<Stats>)
      ensures s == BookStatistics(items)
    {
      var bookFiles := 0;
      for i := 0 to |items|
        invariant JNull !in items[..i]
        invariant bookFiles == BookFiles(items[..i])
      {
        BookFilesStep(items, i);
        if items[i].JNull? {
          assert items[i] in items;
          return None;
        }
        bookFiles := bookFiles + 1;
        var n := CountChapters(items[i]);
        RangeLength(items[i]);
        bookFiles := bookFiles + n;
      }
      assert items[..|items|] == items;
      s := Some(Stats(|items|, bookFiles));
    }

    /** `printStatistics`: the totals it prints, or None when it throws. */
    method PrintStatistics() returns (stats: Option<Stats>)
      ensures stats == StatisticsOf(parashas, BookIds)
    {
      stats := CountBooks(parashas, BookIds);
    }

    /** The book loop of `printStatistics` over the given book ids. */
    static method CountBooks(parashas: Json, ids: seq<string>) returns (stats: Option<Stats>)
      ensures stats == StatisticsOf(parashas, ids)
    {
      var totals := Stats(0, 0);
      for i := 0 to |ids|
        invariant StatisticsOf(parashas, ids[..i]) == Some(totals)
      {
        StatisticsStep(parashas, ids, i);
        var next := AddBookCounts(totals, parashas, ids[i]);
        if next.None? {
          StatisticsStayNone(parashas, ids, i + 1);
          return None;
        }
        totals := next.value;
      }
      assert ids[..|ids|] == ids;
      stats := Some(totals);
    }

    /** One pass of that loop: look the book up and add its counts. */
    static method AddBookCounts(totals: Stats, parashas: Json, id: string) returns (r: Option<Stats>)
      ensures r == AddBook(Some(totals), parashas, id)
    {
      var lookup := BookParashas(parashas, id);
      if lookup.LookupThrew? {
        return None;
      }
      r := Some(totals);
      if lookup.Found? {
        var b := CountBook(lookup.items);
        if b.None? {
          return None;
        }
        r := Some(Stats(totals.folders + b.value.folders, totals.files + b.value.files));
      }
    }
  }

  /** Once the statistics have thrown they stay thrown. */
  lemma {:induction false} StatisticsStayNone(parashas: Json, ids: seq<string>, n: nat)
    requires n <= |ids| && StatisticsOf(parashas, ids[..n]).None?
    ensures StatisticsOf(parashas, ids).None?
    decreases |ids| - n
  {
    if n < |ids| {
      var init := ids[..|ids| - 1];
      assert init[..n] == ids[..n];
      StatisticsStayNone(parashas, init, n);
    } else {
      assert ids[..n] == ids;
    }
  }
}
