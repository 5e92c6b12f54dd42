/** The records of the Torah data tree (parashot, verse and chapter files,
    book metadata, indexes, lexicon) and the shape of `torah-structure.json`.
    Optional fields are `Option`s; numbers read from JSON are `int`. */
module TorahTypes {
  import opened Wrappers

  /** A weekly reading: a run of chapters, possibly starting or ending inside
      a chapter (then `startVerse` / `endVerse` say where). */
  datatype Parasha = Parasha(
    id: string,
    number: int,
    hebrew: string,
    russian: string,
    english: string,
    startChapter: int,
    endChapter: int,
    startVerse: Option<int>,
    endVerse: Option<int>,
    theme: string,
    description: string)

  datatype Translation = Translation(
    meaning: string,
    context: Option<string>,
    grammar: Option<string>)

  datatype HebrewWord = HebrewWord(
    position: int,
    hebrew: string,
    transliteration: string,
    root: Option<string>,
    translations: seq<Translation>)

  /** Commentaries keyed by commentator id (`rashi`, `ramban`, ...): the
      entries of the JSON object in their order, a `null` text as `None`. */
  type Commentaries = seq<(string, Option<string>)>

  datatype Verse = Verse(
    number: int,
    hebrew: seq<string>,
    russian: string,
    words: seq<HebrewWord>,
    commentaries: Option<Commentaries>)

  datatype Completeness = Completeness(words: string, translations: string, commentaries: string)

  datatype VerseFileMetadata = VerseFileMetadata(
    lastUpdated: string,
    dataVersion: string,
    completeness: Completeness,
    convertedFrom: Option<string>)

  /** One verse per file: `{book}/{parasha}/{parasha}-NNN-NNN.json`. */
  datatype VerseFile = VerseFile(
    book: string,
    parasha: string,
    chapter: int,
    verse: int,
    hebrew: seq<string>,
    russian: Option<string>,
    words: seq<HebrewWord>,
    commentaries: Option<Commentaries>,
    metadata: VerseFileMetadata)

  datatype ChapterMetadata = ChapterMetadata(
    availableVerses: seq<int>,
    lastUpdated: string,
    dataVersion: string)

  datatype ChapterFile = ChapterFile(
    book: string,
    parasha: Option<string>,
    chapter: int,
    title: Option<string>,
    theme: Option<string>,
    totalVerses: int,
    verses: seq<Verse>,
    metadata: Option<ChapterMetadata>)

  datatype ChapterInfo = ChapterInfo(number: int, verses: int, parasha: Option<string>)

  datatype BookMetadata = BookMetadata(
    book: string,
    english: string,
    hebrew: string,
    russian: string,
    totalChapters: int,
    totalVerses: int,
    parashas: seq<Parasha>,
    chapters: seq<ChapterInfo>,
    availableChapters: Option<seq<int>>,
    availableParashas: seq<string>)

  datatype BookEntry = BookEntry(
    id: string,
    english: string,
    hebrew: string,
    russian: string,
    chapters: int,
    totalVerses: int)

  datatype BooksIndex = BooksIndex(
    books: seq<BookEntry>,
    totalBooks: int,
    totalChapters: int,
    totalVerses: int)

  datatype Commentator = Commentator(id: string, name: string, hebrewName: string, fullName: string)

  datatype CommentatorsIndex = CommentatorsIndex(commentators: seq<Commentator>)

  /** A lexicon entry; `meanings` may be missing from the JSON. */
  datatype LexiconEntry = LexiconEntry(root: string, meanings: Option<seq<Translation>>, frequency: int)

  type HebrewLexicon = map<string, LexiconEntry>

  /** An entry of `chaptersData` in `torah-structure.json`: keyed by the
      chapter number, or by `{chapter}_{parasha}` for a chapter shared by
      two parashot. */
  datatype ChapterData = ChapterData(verses: int, startVerse: Option<int>, endVerse: Option<int>)

  datatype BookStructure = BookStructure(chapters: int, chaptersData: map<string, ChapterData>)

  /** `torah-structure.json`: books keyed by lower-case id. */
  datatype TorahStructure = TorahStructure(books: map<string, BookStructure>)

  /** `parashas.json`: the parashot of every book, keyed by book id. */
  type ParashaTable = map<string, seq<Parasha>>
}
