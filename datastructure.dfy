/** `scripts/createDataStructure.js`: the five books of `TORAH_BOOKS`, the
    books index, commentators index and progress tracker written under
    `public/data/metadata`, each book's metadata file, and the empty chapter
    templates written only where no chapter file exists yet. The file system
    is the `files` map of a `DataStructureScript`; directories, timestamps
    and console output are not modelled. */
module DataStructure {
  import opened Wrappers
  import opened Text
  import opened Ranges

  const DataDir := "public/data"

  // ---------------------------------------------------------------------
  // The books (lines 11-90)

  /** One entry of a book's `chapterInfo`; the fields a template reads may
      be absent (the defaults of lines 340-344 have no theme). */
  datatype ChapterInfo = ChapterInfo(number: int, verses: Option<int>, title: Option<string>, theme: Option<string>)

  datatype BookInfo = BookInfo(
    id: string, english: string, hebrew: string, russian: string, transliteration: string,
    chapters: int, totalVerses: int, description: string, chapterInfo: Option<seq<ChapterInfo>>)

  function Info(number: int, verses: int, title: string, theme: string): ChapterInfo {
    ChapterInfo(number, Some(verses), Some(title), Some(theme))
  }

  const GenesisBook := BookInfo("genesis", "Genesis", "בראשית", "Берешит", "Bereishit", 50, 1533,
    "Первая книга Торы, описывающая сотворение мира и историю патриархов", Some([
      Info(1, 31, "Сотворение мира", "Шесть дней творения"),
      Info(2, 25, "Человек в Эдемском саду", "Создание человека"),
      Info(3, 24, "Грехопадение", "Нарушение заповеди"),
      Info(4, 26, "Каин и Авель", "Первое убийство"),
      Info(5, 32, "Родословие от Адама", "Поколения до потопа")]))

  const ExodusBook := BookInfo("exodus", "Exodus", "שמות", "Шмот", "Shemot", 40, 1213,
    "Вторая книга Торы, рассказывающая об исходе из Египта", Some([
      Info(1, 22, "Порабощение в Египте", "Начало рабства"),
      Info(2, 25, "Рождение Моисея", "Спаситель народа"),
      Info(3, 22, "Неопалимая купина", "Призвание Моисея")]))

  const LeviticusBook := BookInfo("leviticus", "Leviticus", "ויקרא", "Ваикра", "Vayikra", 27, 859,
    "Третья книга Торы, содержащая законы о жертвоприношениях и чистоте", Some([
      Info(1, 17, "Всесожжения", "Законы жертвоприношений"),
      Info(2, 16, "Хлебные приношения", "Мучные жертвы"),
      Info(3, 17, "Мирные жертвы", "Жертвы благодарения")]))

  const NumbersBook := BookInfo("numbers", "Numbers", "במדבר", "Бемидбар", "Bemidbar", 36, 1288,
    "Четвертая книга Торы о странствии в пустыне", Some([
      Info(1, 54, "Перепись народа", "Подсчет колен"),
      Info(2, 34, "Расположение станов", "Порядок в стане"),
      Info(3, 51, "Левиты", "Служители Храма")]))

  const DeuteronomyBook := BookInfo("deuteronomy", "Deuteronomy", "דברים", "Дварим", "Devarim", 34, 959,
    "Пятая книга Торы, последние речи Моисея", Some([
      Info(1, 46, "Воспоминания о пути", "История странствий"),
      Info(2, 37, "Завоевания", "Победы народа"),
      Info(3, 29, "Разделение земли", "Наследование")]))

  /** `TORAH_BOOKS`. */
  const TorahBooks: seq<BookInfo> := [GenesisBook, ExodusBook, LeviticusBook, NumbersBook, DeuteronomyBook]

  // ---------------------------------------------------------------------
  // Totals (lines 113-115, 279-280, 304-306)

  function Chapters(b: BookInfo): int {
    b.chapters
  }

  function Verses(b: BookInfo): int {
    b.totalVerses
  }

  /** `books.reduce((sum, book) => sum + count(book), 0)`, left to right. */
  function Total(books: seq<BookInfo>, count: BookInfo -> int): int
    decreases |books|
  {
    if books == [] then 0 else Total(books[..|books| - 1], count) + count(books[|books| - 1])
  }

  /** The counts of the books, in order. */
  function Counts(books: seq<BookInfo>, count: BookInfo -> int): (cs: seq<int>)
    ensures |cs| == |books|
    ensures forall i :: 0 <= i < |books| ==> cs[i] == count(books[i])
  {
    seq(|books|, i requires 0 <= i < |books| => count(books[i]))
  }

  /** The left-to-right `reduce` is the sum of the counts. */
  lemma {:induction false} TotalIsSum(books: seq<BookInfo>, count: BookInfo -> int)
    ensures Total(books, count) == Sum(Counts(books, count))
    decreases |books|
  {
    if books != [] {
      var init := books[..|books| - 1];
      TotalIsSum(init, count);
      assert Counts(books, count) == Counts(init, count) + [count(books[|books| - 1])];
      SumAppend(Counts(init, count), [count(books[|books| - 1])]);
    }
  }

  /** A book as listed in the index: everything but its `chapterInfo`. */
  datatype BookSummary = BookSummary(
    id: string, english: string, hebrew: string, russian: string, transliteration: string,
    chapters: int, totalVerses: int, description: string)

  function Summary(b: BookInfo): BookSummary {
    BookSummary(b.id, b.english, b.hebrew, b.russian, b.transliteration, b.chapters, b.totalVerses, b.description)
  }

  datatype BooksIndex = BooksIndex(books: seq<BookSummary>, totalBooks: nat, totalChapters: int, totalVerses: int)

  /** `createBooksIndex`, lines 102-117: one summary per book, in order, and
      the book count and the sums of their chapter and verse counts. */
  function BooksIndexOf(books: seq<BookInfo>): (r: BooksIndex)
    ensures |r.books| == |books| && r.totalBooks == |books|
    ensures forall i :: 0 <= i < |books| ==>
      && r.books[i].id == books[i].id && r.books[i].chapters == books[i].chapters
      && r.books[i].totalVerses == books[i].totalVerses
      && r.books[i].english == books[i].english && r.books[i].hebrew == books[i].hebrew
      && r.books[i].russian == books[i].russian && r.books[i].transliteration == books[i].transliteration
      && r.books[i].description == books[i].description
    ensures r.totalChapters == Sum(Counts(books, Chapters))
    ensures r.totalVerses == Sum(Counts(books, Verses))
  {
    TotalIsSum(books, Chapters);
    TotalIsSum(books, Verses);
    BooksIndex(seq(|books|, i requires 0 <= i < |books| => Summary(books[i])), |books|,
      Total(books, Chapters), Total(books, Verses))
  }

  /** Verses counted as done, and hours budgeted per remaining verse. */
  const VersesDone := 15
  const HoursPerVerse := 2

  datatype Completed = Completed(books: int, chapters: int, verses: int, words: int, translations: int, commentaries: int)

  datatype Progress = Progress(
    totalBooks: nat, totalChapters: int, totalVerses: int, completed: Completed,
    shares: seq<(string, string)>, estimates: seq<(string, string)>,
    workVerses: int, hoursPerVerse: int, totalHours: int)

  /** The hard-coded shares of lines 289-296. */
  const Shares: seq<(string, string)> := [
    ("overall", "0.26%"), ("genesis", "6%"), ("exodus", "7.5%"), ("leviticus", "11.1%"),
    ("numbers", "8.3%"), ("deuteronomy", "8.8%")]

  /** The hard-coded `estimatedCompletion` texts of lines 298-302. */
  const Estimates: seq<(string, string)> := [
    ("conservative", "2-3 года при активной работе"),
    ("optimistic", "1-2 года при команде переводчиков"),
    ("realistic", "2 года при систематической работе")]

  /** `createProgressTracker`, lines 277-308: the same totals as the index,
      the verses left once the 15 done are taken off, two hours for each. */
  function ProgressOf(books: seq<BookInfo>): (p: Progress)
    ensures p.totalBooks == |books|
    ensures p.totalChapters == Sum(Counts(books, Chapters))
    ensures p.totalVerses == Sum(Counts(books, Verses))
    ensures p.completed == Completed(0, 0, VersesDone, 0, 0, 0)
    ensures p.shares == Shares && p.estimates == Estimates
    ensures p.workVerses == p.totalVerses - p.completed.verses
    ensures p.hoursPerVerse == HoursPerVerse && p.totalHours == p.hoursPerVerse * p.workVerses
  {
    TotalIsSum(books, Chapters);
    TotalIsSum(books, Verses);
    Progress(|books|, Total(books, Chapters), Total(books, Verses), Completed(0, 0, VersesDone, 0, 0, 0),
      Shares, Estimates, Total(books, Verses) - VersesDone, HoursPerVerse, (Total(books, Verses) - VersesDone) * HoursPerVerse)
  }

  /** The five books: 187 chapters and 5852 verses, of which 5837 are left,
      budgeted at 11674 hours. */
  lemma TorahTotals()
    ensures BooksIndexOf(TorahBooks).totalBooks == 5
    ensures BooksIndexOf(TorahBooks).totalChapters == 187
    ensures BooksIndexOf(TorahBooks).totalVerses == 5852
    ensures ProgressOf(TorahBooks).workVerses == 5837 && ProgressOf(TorahBooks).totalHours == 11674
  {
    assert Counts(TorahBooks, Chapters) == [50, 40, 27, 36, 34];
    assert Counts(TorahBooks, Verses) == [1533, 1213, 859, 1288, 959];
    SumOfFive(50, 40, 27, 36, 34);
    SumOfFive(1533, 1213, 859, 1288, 959);
  }

  lemma SumOfFive(a: int, b: int, c: int, d: int, e: int)
    ensures Sum([a, b, c, d, e]) == a + b + c + d + e
  {
    assert [e][1..] == [];
    assert Sum([e]) == e;
    assert [d, e][1..] == [e];
    assert Sum([d, e]) == d + e;
    assert [c, d, e][1..] == [d, e];
    assert Sum([c, d, e]) == c + d + e;
    assert [b, c, d, e][1..] == [c, d, e];
    assert Sum([b, c, d, e]) == b + c + d + e;
    assert [a, b, c, d, e][1..] == [b, c, d, e];
  }

  // ---------------------------------------------------------------------
  // Book metadata (lines 123-143)

  /** The chapters created when a book has no `chapterInfo` (lines 340-344). */
  const ChapterWord := "Глава "
  const DefaultChapters: seq<ChapterInfo> := [
    ChapterInfo(1, Some(31), Some(ChapterWord + "1"), None),
    ChapterInfo(2, Some(25), Some(ChapterWord + "2"), None),
    ChapterInfo(3, Some(24), Some(ChapterWord + "3"), None)]

  /** `chapterInfo.map(ch => ch.number)`. */
  function NumbersOf(cs: seq<ChapterInfo>): (ns: seq<int>)
    ensures |ns| == |cs|
    ensures forall i :: 0 <= i < |cs| ==> ns[i] == cs[i].number
  {
    seq(|cs|, i requires 0 <= i < |cs| => cs[i].number)
  }

  datatype BookMetadata = BookMetadata(
    book: string, english: string, hebrew: string, russian: string, transliteration: string,
    description: string, totalChapters: int, totalVerses: int,
    chapters: seq<ChapterInfo>, availableChapters: seq<int>, dataVersion: string)

  const DataVersion := "1.0.0"

  /** `createBookMetadata`: the book's own fields, its `chapterInfo` (or
      none) and, as available, the numbers of that `chapterInfo` in order, or
      chapters 1 to 3 when it has none. */
  function BookMetadataOf(b: BookInfo): (m: BookMetadata)
    ensures m.book == b.id && m.totalChapters == b.chapters && m.totalVerses == b.totalVerses
    ensures m.english == b.english && m.hebrew == b.hebrew && m.russian == b.russian
    ensures m.transliteration == b.transliteration && m.description == b.description
    ensures b.chapterInfo.Some? ==> m.chapters == b.chapterInfo.value
    ensures b.chapterInfo.Some? ==> m.availableChapters == NumbersOf(m.chapters)
    ensures b.chapterInfo.None? ==> m.chapters == [] && m.availableChapters == [1, 2, 3]
    ensures m.dataVersion == DataVersion
  {
    BookMetadata(b.id, b.english, b.hebrew, b.russian, b.transliteration, b.description,
      b.chapters, b.totalVerses, b.chapterInfo.GetOr([]),
      if b.chapterInfo.Some? then NumbersOf(b.chapterInfo.value) else [1, 2, 3], DataVersion)
  }

  /** `book.chapterInfo || [defaults]`, the chapters `main` makes templates for. */
  function ChaptersToCreate(b: BookInfo): seq<ChapterInfo> {
    b.chapterInfo.GetOr(DefaultChapters)
  }

  /** The chapters a book's metadata lists as available are exactly those
      that get a template, in the same order. */
  lemma MetadataListsTemplates(b: BookInfo)
    ensures BookMetadataOf(b).availableChapters == NumbersOf(ChaptersToCreate(b))
  {
    if b.chapterInfo.None? {
      assert NumbersOf(DefaultChapters) == [1, 2, 3];
    }
  }

  // ---------------------------------------------------------------------
  // The empty chapter template (lines 145-210)

  datatype TemplateTranslation = TemplateTranslation(meaning: string, context: string, grammar: string, sources: seq<string>)

  datatype TemplateWord = TemplateWord(
    hebrew: string, transliteration: string, root: string, translations: seq<TemplateTranslation>,
    partOfSpeech: string, gender: Option<string>, number: string, occurrences: int, frequency: string)

  datatype TemplateVerse = TemplateVerse(
    number: int, hebrew: seq<string>, russian: string, english: string,
    words: seq<TemplateWord>, commentaries: map<string, string>)

  datatype Completeness = Completeness(verses: string, words: string, translations: string, commentaries: string)

  datatype ChapterTemplate = ChapterTemplate(
    book: string, chapter: int, title: string, theme: string, totalVerses: int,
    verses: seq<TemplateVerse>, availableVerses: seq<int>, dataVersion: string, completeness: Completeness)

  const FillIn := "[ТРЕБУЕТСЯ_ЗАПОЛНЕНИЕ]"
  const Pending := "требуется заполнение"
  const NoTheme := "Тема не определена"
  const DefaultVerseCount := 31

  const PlaceholderWord := TemplateWord(FillIn, "[ТРЕБУЕТСЯ_ТРАНСЛИТЕРАЦИЯ]", "[КОРЕНЬ]",
    [TemplateTranslation("[ТРЕБУЕТСЯ ПЕРЕВОД]", "[ТРЕБУЕТСЯ КОНТЕКСТ]", "[ТРЕБУЕТСЯ ГРАММАТИКА]", ["[ИСТОЧНИК]"])],
    "unknown", None, "singular", 1, "unknown")

  /** The one verse of every template (lines 160-194). */
  const PlaceholderVerse := TemplateVerse(1, [FillIn],
    "[ТРЕБУЕТСЯ ПЕРЕВОД НА РУССКИЙ]", "[ТРЕБУЕТСЯ ПЕРЕВОД НА АНГЛИЙСКИЙ]", [PlaceholderWord],
    map["rashi" := "[ТРЕБУЕТСЯ КОММЕНТАРИЙ РАШИ]", "ramban" := "[ТРЕБУЕТСЯ КОММЕНТАРИЙ РАМБАНА]",
        "ibn_ezra" := "[ТРЕБУЕТСЯ КОММЕНТАРИЙ ИБН ЭЗРЫ]"])

  /** `info?.title || fallback`: the title when it is a non-empty string. */
  function TitleOr(info: Option<ChapterInfo>, fallback: string): (t: string)
    ensures info.Some? && info.value.title.Some? && info.value.title.value != "" ==> t == info.value.title.value
    ensures !(info.Some? && info.value.title.Some? && info.value.title.value != "") ==> t == fallback
  {
    if info.Some? && info.value.title.Some? && info.value.title.value != "" then info.value.title.value else fallback
  }

  /** `info?.theme || fallback`. */
  function ThemeOr(info: Option<ChapterInfo>, fallback: string): (t: string)
    ensures info.Some? && info.value.theme.Some? && info.value.theme.value != "" ==> t == info.value.theme.value
    ensures !(info.Some? && info.value.theme.Some? && info.value.theme.value != "") ==> t == fallback
  {
    if info.Some? && info.value.theme.Some? && info.value.theme.value != "" then info.value.theme.value else fallback
  }

  /** `info?.verses || fallback`: the count when it is a non-zero number. */
  function VersesOr(info: Option<ChapterInfo>, fallback: int): (n: int)
    ensures info.Some? && info.value.verses.Some? && info.value.verses.value != 0 ==> n == info.value.verses.value
    ensures !(info.Some? && info.value.verses.Some? && info.value.verses.value != 0) ==> n == fallback
  {
    if info.Some? && info.value.verses.Some? && info.value.verses.value != 0 then info.value.verses.value else fallback
  }

  /** The template of lines 154-206: the info's title, theme and verse count
      where given and truthy, else `Глава n`, the undetermined theme and 31;
      a single placeholder verse numbered 1, listed as the one available
      verse; and a completeness note counting that verse out of the total. */
  function ChapterTemplateOf(bookId: string, n: int, info: Option<ChapterInfo>): (t: ChapterTemplate)
    ensures t.book == bookId && t.chapter == n
    ensures t.title == TitleOr(info, ChapterWord + IntToString(n))
    ensures t.theme == ThemeOr(info, NoTheme)
    ensures t.totalVerses == VersesOr(info, DefaultVerseCount)
    ensures |t.verses| == 1 && t.verses[0] == PlaceholderVerse && t.verses[0].number == 1
    ensures t.availableVerses == [t.verses[0].number]
    ensures t.completeness.verses == "1/" + IntToString(t.totalVerses) + " (" + Pending + ")"
    ensures t.completeness.words == Pending && t.completeness.translations == Pending
    ensures t.completeness.commentaries == Pending
    ensures t.dataVersion == DataVersion
  {
    var total := VersesOr(info, DefaultVerseCount);
    ChapterTemplate(bookId, n, TitleOr(info, ChapterWord + IntToString(n)), ThemeOr(info, NoTheme), total,
      [PlaceholderVerse], [1], DataVersion,
      Completeness("1/" + IntToString(total) + " (" + Pending + ")", Pending, Pending, Pending))
  }

  /** A default chapter's own title is the title a template gives a chapter
      without info, so the defaults of lines 340-344 change only the verse
      count. */
  lemma DefaultTitlesAgree(bookId: string, k: nat)
    requires k < |DefaultChapters|
    ensures ChapterTemplateOf(bookId, k + 1, Some(DefaultChapters[k])).title == ChapterTemplateOf(bookId, k + 1, None).title
    ensures ChapterTemplateOf(bookId, k + 1, Some(DefaultChapters[k])).theme == NoTheme
  {
    assert IntToString(k + 1) == [DigitChar(k + 1)];
    assert DigitChar(k + 1) == ['1', '2', '3'][k];
  }

  // ---------------------------------------------------------------------
  // Paths (lines 100, 124, 146, 213, 275)

  const IndexPath := DataDir + "/metadata/books.json"
  const CommentatorsPath := DataDir + "/metadata/commentators.json"
  const ProgressPath := DataDir + "/metadata/progress.json"

  function BookDir(bookId: string): string {
    DataDir + "/" + bookId
  }

  function BookMetadataPath(bookId: string): string {
    BookDir(bookId) + "/metadata.json"
  }

  /** `chapter-${n.toString().padStart(3, '0')}.json` in the book's folder. */
  function ChapterPath(bookId: string, n: int): string {
    BookDir(bookId) + "/chapter-" + PadStart3(IntToString(n)) + ".json"
  }

  lemma {:induction false} PadStart3Last(s: string)
    requires s != []
    ensures PadStart3(s)[|PadStart3(s)| - 1] == s[|s| - 1]
    decreases 3 - |s|
  {
    if |s| < 3 {
      PadStart3Last(['0'] + s);
    }
  }

  /** A chapter file name ends in a digit before `.json`. */
  lemma ChapterPathDigit(bookId: string, n: int)
    ensures var p := ChapterPath(bookId, n); IsDigit(p[|p| - 6])
  {
    var s := IntToString(n);
    PadStart3Last(s);
    var d := if n < 0 then NatToString(-n) else NatToString(n);
    assert s[|s| - 1] == d[|d| - 1];
  }

  /** No chapter file is one of the files the script overwrites. */
  lemma ChapterPathIsNotMetadata(bookId: string, n: int, other: string)
    ensures ChapterPath(bookId, n) != BookMetadataPath(other)
    ensures ChapterPath(bookId, n) !in {IndexPath, CommentatorsPath, ProgressPath}
  {
    ChapterPathDigit(bookId, n);
    var m := BookMetadataPath(other);
    assert m[|m| - 6] == 'a';
  }

  /** Two chapters numbered from zero up get two files. */
  lemma ChapterPathInjective(bookId: string, a: int, b: int)
    requires a >= 0 && b >= 0
    requires ChapterPath(bookId, a) == ChapterPath(bookId, b)
    ensures a == b
  {
    var pre := BookDir(bookId) + "/chapter-";
    var pa := ChapterPath(bookId, a);
    assert PadStart3(IntToString(a)) == pa[|pre|..|pa| - 5];
    assert PadStart3(IntToString(b)) == pa[|pre|..|pa| - 5];
    Pad3Injective(a, b);
  }

  /** Two books get two metadata files. */
  lemma BookMetadataPathInjective(a: string, b: string)
    requires BookMetadataPath(a) == BookMetadataPath(b)
    ensures a == b
  {
    var p := BookMetadataPath(a);
    assert a == p[|DataDir| + 1..|p| - 14];
    assert b == p[|DataDir| + 1..|p| - 14];
  }

  // ---------------------------------------------------------------------
  // Commentators (lines 212-272)

  datatype Commentator = Commentator(
    id: string, name: string, hebrewName: string, fullName: string, years: string,
    description: string, style: string, language: string)

  const Commentators: seq<Commentator> := [
    Commentator("rashi", "Раши", "רש\"י", "Рабби Шломо Ицхаки", "1040-1105",
      "Величайший комментатор Торы и Талмуда, объясняющий простой смысл текста", "peshat", "hebrew"),
    Commentator("ramban", "Рамбан", "רמב\"ן", "Рабби Моше бен Нахман", "1194-1270",
      "Каббалист и комментатор, сочетающий простой и скрытый смысл", "peshat-remez", "hebrew"),
    Commentator("ibn_ezra", "Ибн Эзра", "אבן עזרא", "Рабби Авраам Ибн Эзра", "1089-1167",
      "Грамматик и философ, точный анализ текста", "peshat-grammar", "hebrew"),
    Commentator("sforno", "Сфорно", "ספורנו", "Рабби Овадья Сфорно", "1475-1550",
      "Итальянский комментатор эпохи Возрождения", "peshat-philosophy", "hebrew"),
    Commentator("kli_yakar", "Кли Якар", "כלי יקר", "Рабби Шломо Эфраим Лунчиц", "1550-1619",
      "Моралист и проповедник, извлекающий этические уроки", "drash-ethics", "hebrew")]

  /** Every commentary a template asks for is by an indexed commentator. */
  lemma TemplateCommentatorsIndexed(key: string)
    requires key in PlaceholderVerse.commentaries
    ensures exists i :: 0 <= i < |Commentators| && Commentators[i].id == key
  {
    if key == "rashi" {
      assert Commentators[0].id == key;
    } else if key == "ramban" {
      assert Commentators[1].id == key;
    } else {
      assert Commentators[2].id == key;
    }
  }

  // ---------------------------------------------------------------------
  // Files

  /** What a file under the data directory holds. */
  datatype FileContent =
    | Other
    | IndexFile(index: BooksIndex)
    | CommentatorsFile(commentators: seq<Commentator>)
    | ProgressFile(progress: Progress)
    | BookMetadataFile(metadata: BookMetadata)
    | ChapterFile(template: ChapterTemplate)

  type Files = map<string, FileContent>

  /** A file to write: its path and content. */
  type Entry = (string, FileContent)

  /** Every entry of `f` is in `g` unchanged. */
  predicate Extends(f: Files, g: Files) {
    forall k :: k in f ==> k in g && g[k] == f[k]
  }

  function PathsOf(es: seq<Entry>): (ps: set<string>)
    decreases |es|
  {
    if es == [] then {} else PathsOf(es[..|es| - 1]) + {es[|es| - 1].0}
  }

  lemma {:induction false} PathsOfMember(es: seq<Entry>, i: nat)
    requires i < |es|
    ensures es[i].0 in PathsOf(es)
    decreases |es|
  {
    if i < |es| - 1 {
      PathsOfMember(es[..|es| - 1], i);
    }
  }

  /** `writeFileSync` of each entry in turn, replacing what was there. */
  function Written(f: Files, ws: seq<Entry>): Files
    decreases |ws|
  {
    if ws == [] then f else Written(f, ws[..|ws| - 1])[ws[|ws| - 1].0 := ws[|ws| - 1].1]
  }

  /** Writing amounts to laying the written map over the old files. */
  lemma {:induction false} WrittenUnion(f: Files, ws: seq<Entry>)
    ensures Written(f, ws) == f + Written(map[], ws)
    decreases |ws|
  {
    if ws != [] {
      var init := ws[..|ws| - 1];
      WrittenUnion(f, init);
      var m := Written(map[], init);
      var e := ws[|ws| - 1];
      assert (f + m)[e.0 := e.1] == f + m[e.0 := e.1];
    }
  }

  /** A file no entry names keeps its content. */
  lemma {:induction false} WrittenElsewhere(f: Files, ws: seq<Entry>, p: string)
    requires p in f && p !in PathsOf(ws)
    ensures p in Written(f, ws) && Written(f, ws)[p] == f[p]
    decreases |ws|
  {
    if ws != [] {
      WrittenElsewhere(f, ws[..|ws| - 1], p);
    }
  }

  lemma {:induction false} WrittenAppend(f: Files, a: seq<Entry>, b: seq<Entry>)
    ensures Written(f, a + b) == Written(Written(f, a), b)
    decreases |b|
  {
    if b != [] {
      assert (a + b)[..|a + b| - 1] == a + b[..|b| - 1];
      WrittenAppend(f, a, b[..|b| - 1]);
    } else {
      assert a + b == a;
    }
  }

  /** Lines 148-152 and 208: write the entry only when its path is absent. */
  function CreateIfAbsent(f: Files, e: Entry): (r: Files)
    ensures e.0 in f ==> r == f
    ensures e.0 !in f ==> r == f[e.0 := e.1]
  {
    if e.0 in f then f else f[e.0 := e.1]
  }

  /** Create-if-absent for each entry in turn. */
  function Created(f: Files, es: seq<Entry>): Files
    decreases |es|
  {
    if es == [] then f else CreateIfAbsent(Created(f, es[..|es| - 1]), es[|es| - 1])
  }

  /** Creating keeps every file and adds exactly the entries' paths. */
  lemma {:induction false} CreatedShape(f: Files, es: seq<Entry>)
    ensures Extends(f, Created(f, es))
    ensures Created(f, es).Keys == f.Keys + PathsOf(es)
    decreases |es|
  {
    if es != [] {
      CreatedShape(f, es[..|es| - 1]);
    }
  }

  /** When every path is already there, creating changes nothing. */
  lemma {:induction false} CreatedPresent(f: Files, es: seq<Entry>)
    requires PathsOf(es) <= f.Keys
    ensures Created(f, es) == f
    decreases |es|
  {
    if es != [] {
      CreatedPresent(f, es[..|es| - 1]);
    }
  }

  lemma {:induction false} CreatedAppend(f: Files, a: seq<Entry>, b: seq<Entry>)
    ensures Created(f, a + b) == Created(Created(f, a), b)
    decreases |b|
  {
    if b != [] {
      assert (a + b)[..|a + b| - 1] == a + b[..|b| - 1];
      CreatedAppend(f, a, b[..|b| - 1]);
    } else {
      assert a + b == a;
    }
  }

  lemma CreatedStep(f: Files, es: seq<Entry>, j: nat)
    requires j < |es|
    ensures Created(f, es[..j + 1]) == CreateIfAbsent(Created(f, es[..j]), es[j])
  {
    assert es[..j + 1][..j] == es[..j];
  }

  lemma WrittenStep(f: Files, ws: seq<Entry>, j: nat)
    requires j < |ws|
    ensures Written(f, ws[..j + 1]) == Written(f, ws[..j])[ws[j].0 := ws[j].1]
  {
    assert ws[..j + 1][..j] == ws[..j];
  }

  lemma AllTemplatesStep(books: seq<BookInfo>, i: nat)
    requires i < |books|
    ensures AllTemplates(books[..i + 1]) == AllTemplates(books[..i]) + TemplateEntries(books[i])
  {
    assert books[..i + 1][..i] == books[..i];
  }

  predicate DistinctPaths(es: seq<Entry>) {
    forall i, j :: 0 <= i < j < |es| ==> es[i].0 != es[j].0
  }

  lemma {:induction false} NotInPaths(es: seq<Entry>, p: string)
    requires forall i :: 0 <= i < |es| ==> es[i].0 != p
    ensures p !in PathsOf(es)
    decreases |es|
  {
    if es != [] {
      NotInPaths(es[..|es| - 1], p);
    }
  }

  /** Without clashing paths, a file absent before holds its own entry. */
  lemma {:induction false} CreatedContent(f: Files, es: seq<Entry>, i: nat)
    requires DistinctPaths(es) && i < |es| && es[i].0 !in f
    ensures es[i].0 in Created(f, es) && Created(f, es)[es[i].0] == es[i].1
    decreases |es|
  {
    var init := es[..|es| - 1];
    if i < |es| - 1 {
      CreatedContent(f, init, i);
    } else {
      NotInPaths(init, es[i].0);
      CreatedShape(f, init);
    }
  }

  // ---------------------------------------------------------------------
  // The run of `main` (lines 314-362)

  /** The three index files of lines 327-329. */
  function BaseWrites(books: seq<BookInfo>): seq<Entry> {
    [(IndexPath, IndexFile(BooksIndexOf(books))),
     (CommentatorsPath, CommentatorsFile(Commentators)),
     (ProgressPath, ProgressFile(ProgressOf(books)))]
  }

  /** Writing the three index files, one after the other. */
  lemma BaseWritten(f: Files, books: seq<BookInfo>)
    ensures Written(f, BaseWrites(books)) ==
      f[IndexPath := IndexFile(BooksIndexOf(books))][CommentatorsPath := CommentatorsFile(Commentators)]
       [ProgressPath := ProgressFile(ProgressOf(books))]
  {
    var b := BaseWrites(books);
    assert b[..2] == [b[0], b[1]];
    assert [b[0], b[1]][..1] == [b[0]];
    assert [b[0]][..0] == [];
    assert Written(f, [b[0]]) == f[b[0].0 := b[0].1];
    assert Written(f, [b[0], b[1]]) == Written(f, [b[0]])[b[1].0 := b[1].1];
  }

  /** The three index files are three different files. */
  lemma IndexPathsDistinct()
    ensures IndexPath != CommentatorsPath && IndexPath != ProgressPath && CommentatorsPath != ProgressPath
  {
    var k := |DataDir| + 10;
    assert IndexPath[k] == 'b' && CommentatorsPath[k] == 'c' && ProgressPath[k] == 'p';
  }

  function MetadataEntry(b: BookInfo): Entry {
    (BookMetadataPath(b.id), BookMetadataFile(BookMetadataOf(b)))
  }

  /** The book metadata files of lines 333-335, in book order. */
  function MetadataWrites(books: seq<BookInfo>): (ws: seq<Entry>)
    ensures |ws| == |books|
    ensures forall i :: 0 <= i < |books| ==> ws[i] == MetadataEntry(books[i])
  {
    seq(|books|, i requires 0 <= i < |books| => MetadataEntry(books[i]))
  }

  /** Every file `main` overwrites. */
  function ScriptWrites(books: seq<BookInfo>): seq<Entry> {
    BaseWrites(books) + MetadataWrites(books)
  }

  /** `createEmptyChapterTemplate(bookId, n, info)` as an entry. */
  function TemplateEntry(bookId: string, n: int, info: Option<ChapterInfo>): Entry {
    (ChapterPath(bookId, n), ChapterFile(ChapterTemplateOf(bookId, n, info)))
  }

  /** The templates of one book, lines 346-348. */
  function TemplateEntries(b: BookInfo): (es: seq<Entry>)
    ensures |es| == |ChaptersToCreate(b)|
    ensures forall j :: 0 <= j < |es| ==>
      es[j] == TemplateEntry(b.id, ChaptersToCreate(b)[j].number, Some(ChaptersToCreate(b)[j]))
  {
    var cs := ChaptersToCreate(b);
    seq(|cs|, j requires 0 <= j < |cs| => TemplateEntry(b.id, cs[j].number, Some(cs[j])))
  }

  /** The templates of all books, in book order (lines 339-349). */
  function AllTemplates(books: seq<BookInfo>): seq<Entry>
    decreases |books|
  {
    if books == [] then [] else AllTemplates(books[..|books| - 1]) + TemplateEntries(books[|books| - 1])
  }

  /** The files after `main`: every index and metadata file rewritten, then
      every missing template created. */
  function ScriptRun(f: Files, books: seq<BookInfo>): Files {
    Created(Written(f, ScriptWrites(books)), AllTemplates(books))
  }

  lemma {:induction false} PathsOfAppend(a: seq<Entry>, b: seq<Entry>)
    ensures PathsOf(a + b) == PathsOf(a) + PathsOf(b)
    decreases |b|
  {
    if b != [] {
      assert (a + b)[..|a + b| - 1] == a + b[..|b| - 1];
      PathsOfAppend(a, b[..|b| - 1]);
    } else {
      assert a + b == a;
    }
  }

  /** Every template the loop asks for is among the created entries. */
  lemma {:induction false} AllTemplatesHas(books: seq<BookInfo>, i: nat, j: nat)
    requires i < |books| && j < |ChaptersToCreate(books[i])|
    ensures ChapterPath(books[i].id, ChaptersToCreate(books[i])[j].number) in PathsOf(AllTemplates(books))
    decreases |books|
  {
    var init := books[..|books| - 1];
    var es := TemplateEntries(books[|books| - 1]);
    PathsOfAppend(AllTemplates(init), es);
    if i < |books| - 1 {
      AllTemplatesHas(init, i, j);
    } else {
      PathsOfMember(es, j);
    }
  }

  /** After the run every chapter of every book has a file. */
  lemma TemplatesCreated(f: Files, books: seq<BookInfo>, i: nat, j: nat)
    requires i < |books| && j < |ChaptersToCreate(books[i])|
    ensures ChapterPath(books[i].id, ChaptersToCreate(books[i])[j].number) in ScriptRun(f, books)
  {
    AllTemplatesHas(books, i, j);
    CreatedShape(Written(f, ScriptWrites(books)), AllTemplates(books));
  }

  /** A book without `chapterInfo` gets the files of chapters 1, 2 and 3. */
  lemma DefaultTemplatesCreated(f: Files, books: seq<BookInfo>, i: nat)
    requires i < |books| && books[i].chapterInfo.None?
    ensures ChapterPath(books[i].id, 1) in ScriptRun(f, books)
    ensures ChapterPath(books[i].id, 2) in ScriptRun(f, books)
    ensures ChapterPath(books[i].id, 3) in ScriptRun(f, books)
  {
    assert ChaptersToCreate(books[i]) == DefaultChapters;
    TemplatesCreated(f, books, i, 0);
    TemplatesCreated(f, books, i, 1);
    TemplatesCreated(f, books, i, 2);
  }

  /** No chapter file is among the files the run overwrites. */
  lemma {:induction false} ChapterNotWritten(bookId: string, n: int, books: seq<BookInfo>)
    ensures ChapterPath(bookId, n) !in PathsOf(ScriptWrites(books))
  {
    var ws := ScriptWrites(books);
    forall i | 0 <= i < |ws|
      ensures ws[i].0 != ChapterPath(bookId, n)
    {
      if i >= 3 {
        ChapterPathIsNotMetadata(bookId, n, books[i - 3].id);
      } else {
        ChapterPathIsNotMetadata(bookId, n, "");
      }
    }
    NotInPaths(ws, ChapterPath(bookId, n));
  }

  /** A chapter file that exists is never overwritten by the run. */
  lemma ExistingChapterKept(f: Files, books: seq<BookInfo>, bookId: string, n: int)
    requires ChapterPath(bookId, n) in f
    ensures ChapterPath(bookId, n) in ScriptRun(f, books)
    ensures ScriptRun(f, books)[ChapterPath(bookId, n)] == f[ChapterPath(bookId, n)]
  {
    ChapterNotWritten(bookId, n, books);
    WrittenElsewhere(f, ScriptWrites(books), ChapterPath(bookId, n));
    CreatedShape(Written(f, ScriptWrites(books)), AllTemplates(books));
  }

  /** The run keeps every other file and adds exactly the written files
      and the templates. */
  lemma ScriptShape(f: Files, books: seq<BookInfo>)
    ensures ScriptRun(f, books).Keys == f.Keys + PathsOf(ScriptWrites(books)) + PathsOf(AllTemplates(books))
    ensures forall p :: p in f && p !in PathsOf(ScriptWrites(books)) ==> ScriptRun(f, books)[p] == f[p]
  {
    var ws := ScriptWrites(books);
    var g := Written(f, ws);
    WrittenUnion(f, ws);
    CreatedShape(map[], ws);
    CreatedShape(g, AllTemplates(books));
    WrittenKeys(ws);
    forall p | p in f && p !in PathsOf(ws)
      ensures ScriptRun(f, books)[p] == f[p]
    {
      WrittenElsewhere(f, ws, p);
    }
  }

  lemma {:induction false} WrittenKeys(ws: seq<Entry>)
    ensures Written(map[], ws).Keys == PathsOf(ws)
    decreases |ws|
  {
    if ws != [] {
      WrittenKeys(ws[..|ws| - 1]);
    }
  }

  lemma ExtendsTransitive(f: Files, g: Files, h: Files)
    requires Extends(f, g) && Extends(g, h)
    ensures Extends(f, h)
  {
  }

  lemma OverlayExtends(f: Files, m: Files)
    ensures Extends(m, f + m)
  {
  }

  /** Laying over a map the files it already holds changes nothing. */
  lemma OverlayAgreeing(h: Files, m: Files)
    requires Extends(m, h)
    ensures h + m == h
  {
    assert (h + m).Keys == h.Keys;
  }

  /** Running the script a second time changes nothing. */
  lemma RerunChangesNothing(f: Files, books: seq<BookInfo>)
    ensures ScriptRun(ScriptRun(f, books), books) == ScriptRun(f, books)
  {
    var ws := ScriptWrites(books);
    var m := Written(map[], ws);
    var g := Written(f, ws);
    var h := ScriptRun(f, books);
    WrittenUnion(f, ws);
    WrittenUnion(h, ws);
    CreatedShape(g, AllTemplates(books));
    OverlayExtends(f, m);
    ExtendsTransitive(m, g, h);
    OverlayAgreeing(h, m);
    CreatedPresent(h, AllTemplates(books));
  }

  /** The written index and progress files hold the totals of the books. */
  lemma IndexFilesWritten(f: Files, books: seq<BookInfo>)
    ensures IndexPath in ScriptRun(f, books) && ScriptRun(f, books)[IndexPath] == IndexFile(BooksIndexOf(books))
    ensures ProgressPath in ScriptRun(f, books) && ScriptRun(f, books)[ProgressPath] == ProgressFile(ProgressOf(books))
  {
    var base := BaseWrites(books);
    var ms := MetadataWrites(books);
    var g0 := Written(f, base);
    BaseWritten(f, books);
    IndexPathsDistinct();
    assert IndexPath in g0 && g0[IndexPath] == IndexFile(BooksIndexOf(books));
    assert ProgressPath in g0 && g0[ProgressPath] == ProgressFile(ProgressOf(books));
    forall i | 0 <= i < |ms|
      ensures ms[i].0 != IndexPath && ms[i].0 != ProgressPath
    {
      var p := BookMetadataPath(books[i].id);
      assert p[|p| - 6] == 'a';
    }
    NotInPaths(ms, IndexPath);
    NotInPaths(ms, ProgressPath);
    WrittenElsewhere(g0, ms, IndexPath);
    WrittenElsewhere(g0, ms, ProgressPath);
    WrittenAppend(f, base, ms);
    CreatedShape(Written(f, ScriptWrites(books)), AllTemplates(books));
  }

  /** With distinct ids, a book's metadata file holds its metadata. */
  lemma MetadataWritten(f: Files, books: seq<BookInfo>, i: nat)
    requires i < |books|
    requires forall a, b :: 0 <= a < b < |books| ==> books[a].id != books[b].id
    ensures var p := BookMetadataPath(books[i].id);
      p in ScriptRun(f, books) && ScriptRun(f, books)[p] == BookMetadataFile(BookMetadataOf(books[i]))
  {
    var ms := MetadataWrites(books);
    var g0 := Written(f, BaseWrites(books));
    MetadataWrittenAt(g0, books, i);
    WrittenAppend(f, BaseWrites(books), ms);
    CreatedShape(Written(f, ScriptWrites(books)), AllTemplates(books));
  }

  lemma {:induction false} MetadataWrittenAt(g: Files, books: seq<BookInfo>, i: nat)
    requires i < |books|
    requires forall a, b :: 0 <= a < b < |books| ==> books[a].id != books[b].id
    ensures var p := BookMetadataPath(books[i].id);
      p in Written(g, MetadataWrites(books)) && Written(g, MetadataWrites(books))[p] == BookMetadataFile(BookMetadataOf(books[i]))
    decreases |books|
  {
    var init := books[..|books| - 1];
    assert MetadataWrites(books)[..|books| - 1] == MetadataWrites(init);
    if i < |books| - 1 {
      MetadataWrittenAt(g, init, i);
      if BookMetadataPath(books[i].id) == BookMetadataPath(books[|books| - 1].id) {
        BookMetadataPathInjective(books[i].id, books[|books| - 1].id);
      }
    }
  }

  /** For a book whose chapters are numbered from zero up without repeats,
      each template it creates holds that chapter's template. */
  lemma NewTemplateContent(f: Files, b: BookInfo, j: nat)
    requires j < |ChaptersToCreate(b)|
    requires forall k :: 0 <= k < |ChaptersToCreate(b)| ==> ChaptersToCreate(b)[k].number >= 0
    requires forall k, l :: 0 <= k < l < |ChaptersToCreate(b)| ==> ChaptersToCreate(b)[k].number != ChaptersToCreate(b)[l].number
    requires ChapterPath(b.id, ChaptersToCreate(b)[j].number) !in f
    ensures var c := ChaptersToCreate(b)[j];
      && ChapterPath(b.id, c.number) in Created(f, TemplateEntries(b))
      && Created(f, TemplateEntries(b))[ChapterPath(b.id, c.number)] == ChapterFile(ChapterTemplateOf(b.id, c.number, Some(c)))
  {
    var es := TemplateEntries(b);
    var cs := ChaptersToCreate(b);
    forall k, l | 0 <= k < l < |es|
      ensures es[k].0 != es[l].0
    {
      if es[k].0 == es[l].0 {
        ChapterPathInjective(b.id, cs[k].number, cs[l].number);
      }
    }
    CreatedContent(f, es, j);
  }

  /** The five books have distinct ids and chapters numbered from one up
      without repeats. */
  lemma TorahBooksWellFormed()
    ensures forall a, b :: 0 <= a < b < |TorahBooks| ==> TorahBooks[a].id != TorahBooks[b].id
    ensures forall i, k :: 0 <= i < |TorahBooks| && 0 <= k < |ChaptersToCreate(TorahBooks[i])| ==>
      ChaptersToCreate(TorahBooks[i])[k].number == k + 1
  {
  }

  // ---------------------------------------------------------------------
  // The script

  /** The script's view of the disk, over the books of `TORAH_BOOKS`. */
  class DataStructureScript {
    const books: seq<BookInfo>
    var files: Files

    constructor(files: Files)
      ensures books == TorahBooks && this.files == files
    {
      books := TorahBooks;
      this.files := files;
    }

    /** `createBooksIndex`. */
    method CreateBooksIndex()
      modifies this
      ensures files == old(files)[IndexPath := IndexFile(BooksIndexOf(books))]
    {
      files := files[IndexPath := IndexFile(BooksIndexOf(books))];
    }

    /** `createCommentatorsIndex`. */
    method CreateCommentatorsIndex()
      modifies this
      ensures files == old(files)[CommentatorsPath := CommentatorsFile(Commentators)]
    {
      files := files[CommentatorsPath := CommentatorsFile(Commentators)];
    }

    /** `createProgressTracker`. */
    method CreateProgressTracker()
      modifies this
      ensures files == old(files)[ProgressPath := ProgressFile(ProgressOf(books))]
    {
      files := files[ProgressPath := ProgressFile(ProgressOf(books))];
    }

    /** `createBookMetadata(book)`. */
    method CreateBookMetadata(book: BookInfo)
      modifies this
      ensures files == old(files)[BookMetadataPath(book.id) := BookMetadataFile(BookMetadataOf(book))]
    {
      files := files[BookMetadataPath(book.id) := BookMetadataFile(BookMetadataOf(book))];
    }

    /** `createEmptyChapterTemplate(bookId, n, info)`: nothing happens when
        the chapter file exists. */
    method CreateEmptyChapterTemplate(bookId: string, n: int, info: Option<ChapterInfo>)
      modifies this
      ensures ChapterPath(bookId, n) in old(files) ==> files == old(files)
      ensures ChapterPath(bookId, n) !in old(files) ==>
        files == old(files)[ChapterPath(bookId, n) := ChapterFile(ChapterTemplateOf(bookId, n, info))]
    {
      var path := ChapterPath(bookId, n);
      if path in files {
        return;
      }
      files := files[path := ChapterFile(ChapterTemplateOf(bookId, n, info))];
    }

    /** The inner `forEach` of lines 346-348 for one book. */
    method CreateBookTemplates(book: BookInfo)
      modifies this
      ensures files == Created(old(files), TemplateEntries(book))
    {
      var chapters := book.chapterInfo.GetOr(DefaultChapters);
      ghost var es := TemplateEntries(book);
      for j := 0 to |chapters|
        invariant files == Created(old(files), es[..j])
      {
        CreateEmptyChapterTemplate(book.id, chapters[j].number, Some(chapters[j]));
        CreatedStep(old(files), es, j);
      }
      assert es[..|chapters|] == es;
    }

    /** Lines 327-329: the three index files. */
    method CreateIndexes()
      modifies this
      ensures files == Written(old(files), BaseWrites(books))
    {
      CreateBooksIndex();
      CreateCommentatorsIndex();
      CreateProgressTracker();
      BaseWritten(old(files), books);
    }

    /** Lines 333-335: the metadata file of each book, in order. */
    method CreateAllBookMetadata()
      modifies this
      ensures files == Written(old(files), MetadataWrites(books))
    {
      ghost var ms := MetadataWrites(books);
      for i := 0 to |books|
        invariant files == Written(old(files), ms[..i])
      {
        CreateBookMetadata(books[i]);
        WrittenStep(old(files), ms, i);
      }
      assert ms[..|books|] == ms;
    }

    /** Lines 339-349: the templates of each book, in order. */
    method CreateAllTemplates()
      modifies this
      ensures files == Created(old(files), AllTemplates(books))
    {
      for i := 0 to |books|
        invariant files == Created(old(files), AllTemplates(books[..i]))
      {
        CreateBookTemplates(books[i]);
        AllTemplatesStep(books, i);
        CreatedAppend(old(files), AllTemplates(books[..i]), TemplateEntries(books[i]));
      }
      assert books[..|books|] == books;
    }

    /** `main`, up to its console summary. */
    method CreateDataStructure()
      modifies this
      ensures files == ScriptRun(old(files), books)
    {
      CreateIndexes();
      CreateAllBookMetadata();
      WrittenAppend(old(files), BaseWrites(books), MetadataWrites(books));
      CreateAllTemplates();
    }
  }
}
