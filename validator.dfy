/** `scripts/validateData.js`: the `DataValidator` walks the data tree
    (books index, each book's metadata and listed chapters, the
    commentators index and the lexicon), appends an entry to `errors` or
    `warnings` for every problem it meets and counts what it saw in
    `stats`. The report succeeds exactly when no error was logged.

    The file system is the read-only map `files` from a path under the
    data directory to its parsed content (absent: the file does not exist).
    The checks are stated twice: as functions on a `Tally` (the three
    mutable fields as one value), and as the class's methods, each proved
    to leave the fields equal to the function applied to their old value. */
module Validator {
  import opened Wrappers
  import opened Text
  import opened JsonValues

  datatype Level = Error | Warning | Info

  /** Whose required field is missing: a book (its `id`, or "unknown"),
      a book's metadata file, or a commentator. */
  datatype Owner = Book(id: string) | BookMetadata | Commentator(id: string)

  /** What an entry reports, with the values the message interpolates. */
  datatype Message =
    | FileMissing(description: string)
    | JsonParseFailed
    | FileValid(description: string)
    | BooksArrayMissing
    | BooksFound(count: nat)
    | FieldMissing(owner: Owner, field: string)
    | VersesArrayMissing
    | VerseNumberMissing
    | HebrewMissing(verse: string)
    | TranslationMissing(verse: string)
    | WordsMissing(verse: string)
    | WordHebrewMissing(position: nat, verse: string)
    | WordUnfilled(position: nat, verse: string)
    | WordTranslationsMissing(word: string)
    | CommentariesMissing(verse: string)
    | CommentaryMissing(commentator: string, verse: string)
    | CommentatorsArrayMissing
    | CommentatorsFound(count: nat)
    | LexiconAtOldPath
    | LexiconNotFound
    | LexiconWords(count: nat)
    | IndexUnreadable

  datatype Entry = Entry(level: Level, message: Message, file: Option<string>)

  datatype Stats = Stats(
    books: nat, chapters: nat, verses: nat, words: nat,
    emptyVerses: nat, missingTranslations: nat, missingCommentaries: nat)

  /** The validator's mutable state as one value. */
  datatype Tally = Tally(errors: seq<Entry>, warnings: seq<Entry>, stats: Stats)

  /** A file that exists: parsed, or not valid JSON. */
  datatype FileState = Parsed(data: Json) | Unparsable

  type Files = map<string, FileState>

  /** What `getReport` returns (the completion rate is left out). */
  datatype Report = Report(success: bool, errors: seq<Entry>, warnings: seq<Entry>, stats: Stats)

  const BooksIndexPath := "metadata/books.json"
  const CommentatorsPath := "metadata/commentators.json"
  const LexiconPath := "metadata/hebrew-lexicon.json"
  const OldLexiconPath := "hebrew-lexicon.json"
  const Placeholder := "[ТРЕБУЕТСЯ_ЗАПОЛНЕНИЕ]"
  const PendingMarker := "[ТРЕБУЕТСЯ"
  const BookFields := ["id", "english", "hebrew", "russian", "chapters", "totalVerses"]
  const MetadataFields := ["book", "english", "hebrew", "russian", "totalChapters", "availableChapters"]
  const CommentatorFields := ["id", "name", "hebrewName", "fullName", "years", "description"]
  const CheckedCommentators := ["rashi", "ramban", "ibn_ezra"]

  const InitialStats := Stats(0, 0, 0, 0, 0, 0, 0)

  lemma AppendAssoc(a: seq<Entry>, b: seq<Entry>, c: seq<Entry>)
    ensures a + b + c == a + (b + c)
  {
  }

  /** Nothing logged is ever taken back. */
  predicate Extends(t: Tally, u: Tally) {
    t.errors <= u.errors && t.warnings <= u.warnings
  }

  // ---------------------------------------------------------------------
  // Logging and file loading

  /** `log(level, message, file)`: an error is appended to `errors`, a
      warning to `warnings`, anything else to neither. */
  function Logged(t: Tally, e: Entry): (u: Tally)
    ensures e.level == Error ==> u.errors == t.errors + [e] && u.warnings == t.warnings
    ensures e.level == Warning ==> u.warnings == t.warnings + [e] && u.errors == t.errors
    ensures e.level == Info ==> u.errors == t.errors && u.warnings == t.warnings
    ensures u.stats == t.stats && Extends(t, u)
  {
    match e.level
    case Error => t.(errors := t.errors + [e])
    case Warning => t.(warnings := t.warnings + [e])
    case Info => t
  }

  /** `validateJsonFile`: a missing file or a parse failure logs one error
      and yields null; a parsed file is logged as valid and returned. */
  function JsonFileChecked(t: Tally, files: Files, path: string, description: string)
    : (r: (Tally, Option<Json>))
    ensures path !in files ==>
      r.1.None? && r.0 == t.(errors := t.errors + [Entry(Error, FileMissing(description), Some(path))])
    ensures path in files && files[path].Unparsable? ==>
      r.1.None? && r.0 == t.(errors := t.errors + [Entry(Error, JsonParseFailed, Some(path))])
    ensures path in files && files[path].Parsed? ==> r.1 == Some(files[path].data) && r.0 == t
  {
    if path !in files then
      (Logged(t, Entry(Error, FileMissing(description), Some(path))), None)
    else match files[path]
      case Unparsable => (Logged(t, Entry(Error, JsonParseFailed, Some(path))), None)
      case Parsed(data) => (Logged(t, Entry(Info, FileValid(description), Some(path))), Some(data))
  }

  /** The fields of `fields` that `obj` lacks or holds falsy, in order. */
  function MissingFields(obj: Json, fields: seq<string>): (m: seq<string>)
    ensures |m| <= |fields|
  {
    if fields == [] then []
    else
      MissingFields(obj, fields[..|fields| - 1])
        + (if Truthy(Field(obj, fields[|fields| - 1])) then [] else [fields[|fields| - 1]])
  }

  /** The `required.forEach` loops: one error per missing or falsy field. */
  function RequiredChecked(t: Tally, owner: Owner, obj: Json, fields: seq<string>, file: string)
    : (u: Tally)
    ensures Extends(t, u) && u.stats == t.stats && u.warnings == t.warnings
    ensures |u.errors| == |t.errors| + |MissingFields(obj, fields)|
  {
    if fields == [] then t
    else
      var u := RequiredChecked(t, owner, obj, fields[..|fields| - 1], file);
      var f := fields[|fields| - 1];
      if Truthy(Field(obj, f)) then u else Logged(u, Entry(Error, FieldMissing(owner, f), Some(file)))
  }

  /** One `FieldMissing` error per named field, in order. */
  function FieldErrors(owner: Owner, missing: seq<string>, file: string): (es: seq<Entry>)
    ensures |es| == |missing|
  {
    if missing == [] then []
    else
      var last := Entry(Error, FieldMissing(owner, missing[|missing| - 1]), Some(file));
      FieldErrors(owner, missing[..|missing| - 1], file) + [last]
  }

  /** The errors the required-field check appends are exactly one
      `FieldMissing` per missing field, in field order. */
  lemma {:induction false} RequiredCheckedErrors(t: Tally, owner: Owner, obj: Json, fields: seq<string>, file: string)
    ensures RequiredChecked(t, owner, obj, fields, file).errors
      == t.errors + FieldErrors(owner, MissingFields(obj, fields), file)
  {
    if fields != [] {
      var init := fields[..|fields| - 1];
      var f := fields[|fields| - 1];
      RequiredCheckedErrors(t, owner, obj, init, file);
      var m' := MissingFields(obj, init);
      if !Truthy(Field(obj, f)) {
        assert (m' + [f])[..|m'|] == m';
      } else {
        assert m' + [] == m';
      }
    }
  }

  /** No error at all exactly when every required field is truthy. */
  lemma {:induction false} RequiredAllPresent(obj: Json, fields: seq<string>)
    ensures MissingFields(obj, fields) == [] <==> forall f :: f in fields ==> Truthy(Field(obj, f))
  {
    if fields != [] {
      var init := fields[..|fields| - 1];
      RequiredAllPresent(obj, init);
      assert fields == init + [fields[|fields| - 1]];
      assert forall f :: f in fields <==> f in init || f == fields[|fields| - 1];
    }
  }

  /** The owner named in a book's or commentator's missing-field error:
      `id || 'unknown'`. */
  function OwnerId(obj: Json): (id: string)
    ensures Truthy(Field(obj, "id")) ==> id == JsText(Field(obj, "id").value)
    ensures !Truthy(Field(obj, "id")) ==> id == "unknown"
  {
    if Truthy(Field(obj, "id")) then JsText(Field(obj, "id").value) else "unknown"
  }

  // ---------------------------------------------------------------------
  // Books index and book metadata

  /** The required-field check over every book entry, in order. */
  function BookEntriesChecked(t: Tally, books: seq<Json>): (u: Tally)
    ensures Extends(t, u) && u.stats == t.stats && u.warnings == t.warnings
  {
    if books == [] then t
    else
      var b := books[|books| - 1];
      RequiredChecked(BookEntriesChecked(t, books[..|books| - 1]), Book(OwnerId(b)), b, BookFields, BooksIndexPath)
  }

  lemma BookEntriesStep(t: Tally, books: seq<Json>, i: nat)
    requires i < |books|
    ensures BookEntriesChecked(t, books[..i + 1])
            == RequiredChecked(BookEntriesChecked(t, books[..i]), Book(OwnerId(books[i])), books[i], BookFields, BooksIndexPath)
  {
    assert books[..i + 1][..i] == books[..i];
  }

  /** `validateBooksIndex`: the index is returned only when it is truthy and
      holds a `books` array; `stats.books` is then the number of entries. */
  function BooksIndexChecked(t: Tally, files: Files): (r: (Tally, Option<Json>))
    ensures Extends(t, r.0)
    ensures r.1.Some? ==> (IsArray(Field(r.1.value, "books"))
      && r.0.stats == t.stats.(books := |Elements(Field(r.1.value, "books"))|))
    ensures r.1.None? ==> r.0.stats == t.stats
    ensures r.1.Some? <==> IndexReadable(files)
    ensures r.1.Some? ==> r.1.value == files[BooksIndexPath].data
  {
    var (t1, index) := JsonFileChecked(t, files, BooksIndexPath, "индекс книг");
    if !Truthy(index) then (t1, None)
    else if !IsArray(Field(index.value, "books")) then
      (Logged(t1, Entry(Error, BooksArrayMissing, Some(BooksIndexPath))), None)
    else
      var books := Elements(Field(index.value, "books"));
      var t2 := t1.(stats := t1.stats.(books := |books|));
      var t3 := BookEntriesChecked(t2, books);
      (Logged(t3, Entry(Info, BooksFound(|books|), None)), index)
  }

  function MetadataPath(bookId: string): string {
    bookId + "/metadata.json"
  }

  /** `validateBookMetadata`: the metadata is returned only when truthy,
      after one error per missing required field. */
  function MetadataChecked(t: Tally, files: Files, bookId: string): (r: (Tally, Option<Json>))
    ensures Extends(t, r.0) && r.0.stats == t.stats && r.0.warnings == t.warnings
    ensures r.1.Some? ==> (Truthy(r.1)
      && |r.0.errors| == |t.errors| + |MissingFields(r.1.value, MetadataFields)|)
    ensures r.1.Some? <==> MetadataReadable(files, bookId)
    ensures r.1.Some? ==> r.1.value == files[MetadataPath(bookId)].data
  {
    var path := MetadataPath(bookId);
    var (t1, md) := JsonFileChecked(t, files, path, "метаданные " + bookId);
    if !Truthy(md) then (t1, None)
    else (RequiredChecked(t1, BookMetadata, md.value, MetadataFields, path), md)
  }

  // ---------------------------------------------------------------------
  // Chapters, verses and words

  /** `chapter-${String(n).padStart(3, '0')}.json` under the book. */
  function ChapterPath(bookId: string, chapterNum: Json): string {
    bookId + "/chapter-" + PadStart3(JsText(chapterNum)) + ".json"
  }

  /** Whether a word's hebrew is the unfilled-template placeholder. */
  predicate IsPlaceholderWord(word: Json) {
    Field(word, "hebrew") == Some(JStr(Placeholder))
  }

  /** A word without translations: `translations` is falsy or has a
      `length` of 0, which an empty array has and an object whose `length`
      member is 0 has too (a truthy string never has). */
  predicate LacksTranslations(word: Json) {
    var tr := Field(word, "translations");
    || !Truthy(tr)
    || (IsArray(tr) && |tr.value.items| == 0)
    || (tr.value.JObj? && Field(tr.value, "length") == Some(JNum(0)))
  }

  /** The error one word at 1-based `position` logs: its `hebrew` is
      missing or falsy. */
  function WordErrors(file: string, verse: string, position: nat, word: Json): seq<Entry> {
    if Truthy(Field(word, "hebrew")) then []
    else [Entry(Error, WordHebrewMissing(position, verse), Some(file))]
  }

  /** The warnings one word logs, in order: it is the unfilled placeholder,
      then it has no translations. */
  function WordWarnings(file: string, verse: string, position: nat, word: Json): seq<Entry> {
    (if IsPlaceholderWord(word) then [Entry(Warning, WordUnfilled(position, verse), Some(file))] else [])
    + (if LacksTranslations(word)
       then [Entry(Warning, WordTranslationsMissing(FieldText(Field(word, "hebrew"))), Some(file))]
       else [])
  }

  /** The checks of one word at 1-based `position` of verse `verse`. */
  function WordChecked(t: Tally, file: string, verse: string, position: nat, word: Json): (u: Tally)
    ensures Extends(t, u)
    ensures u.stats == t.stats.(words := t.stats.words + 1,
      emptyVerses := t.stats.emptyVerses + if IsPlaceholderWord(word) then 1 else 0)
    ensures u.errors == t.errors + WordErrors(file, verse, position, word)
    ensures u.warnings == t.warnings + WordWarnings(file, verse, position, word)
  {
    var hebrew := Field(word, "hebrew");
    var t1 := t.(stats := t.stats.(words := t.stats.words + 1));
    var t2 := if Truthy(hebrew) then t1
              else Logged(t1, Entry(Error, WordHebrewMissing(position, verse), Some(file)));
    var t3 := if !IsPlaceholderWord(word) then t2
              else
                var l := Logged(t2, Entry(Warning, WordUnfilled(position, verse), Some(file)));
                l.(stats := l.stats.(emptyVerses := l.stats.emptyVerses + 1));
    if LacksTranslations(word) then
      Logged(t3, Entry(Warning, WordTranslationsMissing(FieldText(hebrew)), Some(file)))
    else t3
  }

  /** The number of placeholder words. */
  function PlaceholderCount(words: seq<Json>): nat {
    if words == [] then 0
    else PlaceholderCount(words[..|words| - 1]) + if IsPlaceholderWord(words[|words| - 1]) then 1 else 0
  }

  /** The errors of a verse's words, word after word (positions from 1). */
  function WordsErrors(file: string, verse: string, words: seq<Json>): seq<Entry> {
    if words == [] then []
    else WordsErrors(file, verse, words[..|words| - 1]) + WordErrors(file, verse, |words|, words[|words| - 1])
  }

  /** The warnings of a verse's words, word after word. */
  function WordsWarnings(file: string, verse: string, words: seq<Json>): seq<Entry> {
    if words == [] then []
    else WordsWarnings(file, verse, words[..|words| - 1]) + WordWarnings(file, verse, |words|, words[|words| - 1])
  }

  /** A verse's words log no error exactly when every word has a truthy
      `hebrew`. */
  lemma {:induction false} WordsErrorsEmpty(file: string, verse: string, words: seq<Json>)
    ensures WordsErrors(file, verse, words) == []
      <==> forall i :: 0 <= i < |words| ==> Truthy(Field(words[i], "hebrew"))
  {
    if words != [] {
      var init := words[..|words| - 1];
      WordsErrorsEmpty(file, verse, init);
      assert forall i :: 0 <= i < |init| ==> init[i] == words[i];
    }
  }

  /** `verse.words.forEach`: every word counted, every placeholder counted
      as an empty verse, and each word's entries appended in word order. */
  function WordsChecked(t: Tally, file: string, verse: string, words: seq<Json>): (u: Tally)
    ensures Extends(t, u)
    ensures u.stats == t.stats.(words := t.stats.words + |words|,
      emptyVerses := t.stats.emptyVerses + PlaceholderCount(words))
  {
    if words == [] then t
    else WordChecked(WordsChecked(t, file, verse, words[..|words| - 1]), file, verse, |words|, words[|words| - 1])
  }

  lemma WordsStep(t: Tally, file: string, verse: string, words: seq<Json>, i: nat)
    requires i < |words|
    ensures WordsChecked(t, file, verse, words[..i + 1])
            == WordChecked(WordsChecked(t, file, verse, words[..i]), file, verse, i + 1, words[i])
  {
    assert words[..i + 1][..i] == words[..i];
  }

  /** The words of a verse append exactly their entries, word by word. */
  lemma {:induction false} WordsCheckedEntries(t: Tally, file: string, verse: string, words: seq<Json>)
    ensures WordsChecked(t, file, verse, words).errors == t.errors + WordsErrors(file, verse, words)
    ensures WordsChecked(t, file, verse, words).warnings == t.warnings + WordsWarnings(file, verse, words)
  {
    if words != [] {
      var init := words[..|words| - 1];
      WordsCheckedEntries(t, file, verse, init);
      AppendAssoc(t.errors, WordsErrors(file, verse, init), WordErrors(file, verse, |words|, words[|words| - 1]));
      AppendAssoc(t.warnings, WordsWarnings(file, verse, init), WordWarnings(file, verse, |words|, words[|words| - 1]));
    }
  }

  /** `!c || c.includes('[ТРЕБУЕТСЯ')` for one commentator's entry; a
      string is searched for the marker, an array for an element equal to
      it. */
  predicate CommentaryPending(c: Option<Json>) {
    !Truthy(c)
    || (c.value.JStr? && Contains(c.value.s, PendingMarker))
    || (c.value.JArr? && JStr(PendingMarker) in c.value.items)
  }

  /** One `CommentaryMissing` warning per commentator of `names` whose
      entry is missing or pending, in the order of `names`. */
  function PendingWarnings(file: string, verse: string, commentaries: Json, names: seq<string>)
    : (ws: seq<Entry>)
    ensures |ws| <= |names|
    ensures forall e :: e in ws ==>
      && e.level == Warning && e.file == Some(file)
      && e.message.CommentaryMissing? && e.message.verse == verse
      && e.message.commentator in names
      && CommentaryPending(Field(commentaries, e.message.commentator))
  {
    if names == [] then []
    else
      var name := names[|names| - 1];
      PendingWarnings(file, verse, commentaries, names[..|names| - 1])
        + if CommentaryPending(Field(commentaries, name)) then [Entry(Warning, CommentaryMissing(name, verse), Some(file))] else []
  }

  /** No commentary warning exactly when no checked entry is missing or
      pending. */
  lemma {:induction false} PendingWarningsEmpty(file: string, verse: string, commentaries: Json, names: seq<string>)
    ensures PendingWarnings(file, verse, commentaries, names) == []
      <==> forall i :: 0 <= i < |names| ==> !CommentaryPending(Field(commentaries, names[i]))
  {
    if names != [] {
      var init := names[..|names| - 1];
      PendingWarningsEmpty(file, verse, commentaries, init);
      assert forall i :: 0 <= i < |init| ==> init[i] == names[i];
    }
  }

  /** `commentators.forEach`: one warning per missing or pending entry. */
  function CommentariesChecked(t: Tally, file: string, verse: string, commentaries: Json, names: seq<string>)
    : (u: Tally)
    ensures Extends(t, u) && u.stats == t.stats && u.errors == t.errors
  {
    if names == [] then t
    else
      var u := CommentariesChecked(t, file, verse, commentaries, names[..|names| - 1]);
      var name := names[|names| - 1];
      if CommentaryPending(Field(commentaries, name)) then
        Logged(u, Entry(Warning, CommentaryMissing(name, verse), Some(file)))
      else u
  }

  lemma CommentariesStep(t: Tally, file: string, verse: string, commentaries: Json, names: seq<string>, i: nat)
    requires i < |names|
    ensures CommentariesChecked(t, file, verse, commentaries, names[..i + 1])
            == var u := CommentariesChecked(t, file, verse, commentaries, names[..i]);
               if CommentaryPending(Field(commentaries, names[i]))
               then Logged(u, Entry(Warning, CommentaryMissing(names[i], verse), Some(file))) else u
  {
    assert names[..i + 1][..i] == names[..i];
  }

  /** The warnings appended are exactly the pending commentators', in
      order. */
  lemma {:induction false} CommentariesCheckedEntries(t: Tally, file: string, verse: string, commentaries: Json, names: seq<string>)
    ensures CommentariesChecked(t, file, verse, commentaries, names).warnings
      == t.warnings + PendingWarnings(file, verse, commentaries, names)
  {
    if names != [] {
      var init := names[..|names| - 1];
      var name := names[|names| - 1];
      CommentariesCheckedEntries(t, file, verse, commentaries, init);
      AppendAssoc(t.warnings, PendingWarnings(file, verse, commentaries, init),
        if CommentaryPending(Field(commentaries, name)) then [Entry(Warning, CommentaryMissing(name, verse), Some(file))] else []);
    }
  }

  /** The number of words a verse's `words` array holds (0 without one). */
  function WordCount(verse: Json): nat {
    |Elements(Field(verse, "words"))|
  }

  /** The first checks of a verse: it is counted, then its number, its
      hebrew array and its translation. */
  function VerseFieldsChecked(t: Tally, file: string, verse: Json): (u: Tally)
    ensures Extends(t, u)
    ensures var number := FieldText(Field(verse, "number"));
      u.errors == t.errors
        + (if Truthy(Field(verse, "number")) then [] else [Entry(Error, VerseNumberMissing, Some(file))])
        + (if IsArray(Field(verse, "hebrew")) then [] else [Entry(Error, HebrewMissing(number), Some(file))])
    ensures var number := FieldText(Field(verse, "number"));
      u.warnings == t.warnings
        + (if Truthy(Field(verse, "russian")) then [] else [Entry(Warning, TranslationMissing(number), Some(file))])
    ensures u.stats == t.stats.(
      verses := t.stats.verses + 1,
      missingTranslations := t.stats.missingTranslations + (if Truthy(Field(verse, "russian")) then 0 else 1))
  {
    var number := FieldText(Field(verse, "number"));
    var t1 := t.(stats := t.stats.(verses := t.stats.verses + 1));
    var t2 := if Truthy(Field(verse, "number")) then t1
              else Logged(t1, Entry(Error, VerseNumberMissing, Some(file)));
    var t3 := if IsArray(Field(verse, "hebrew")) then t2
              else Logged(t2, Entry(Error, HebrewMissing(number), Some(file)));
    if Truthy(Field(verse, "russian")) then t3
    else
      var l := Logged(t3, Entry(Warning, TranslationMissing(number), Some(file)));
      l.(stats := l.stats.(missingTranslations := l.stats.missingTranslations + 1))
  }

  /** The remaining checks of a verse: its words, then its commentaries. */
  function VerseContentChecked(t: Tally, file: string, verse: Json): (u: Tally)
    ensures Extends(t, u)
    ensures u.stats == t.stats.(
      words := t.stats.words + WordCount(verse),
      emptyVerses := t.stats.emptyVerses + PlaceholderCount(Elements(Field(verse, "words"))),
      missingCommentaries := t.stats.missingCommentaries + (if Truthy(Field(verse, "commentaries")) then 0 else 1))
  {
    var number := FieldText(Field(verse, "number"));
    var t5 := if IsArray(Field(verse, "words")) then WordsChecked(t, file, number, Elements(Field(verse, "words")))
              else Logged(t, Entry(Warning, WordsMissing(number), Some(file)));
    if Truthy(Field(verse, "commentaries")) then
      CommentariesChecked(t5, file, number, Field(verse, "commentaries").value, CheckedCommentators)
    else
      var l := Logged(t5, Entry(Warning, CommentariesMissing(number), Some(file)));
      l.(stats := l.stats.(missingCommentaries := l.stats.missingCommentaries + 1))
  }

  /** The words' entries or the `WordsMissing` warning, then the pending
      commentators or the `CommentariesMissing` warning. */
  lemma VerseContentEntries(t: Tally, file: string, verse: Json)
    ensures var number := FieldText(Field(verse, "number"));
      var words := Field(verse, "words");
      VerseContentChecked(t, file, verse).errors == t.errors + if IsArray(words) then WordsErrors(file, number, Elements(words)) else []
    ensures var number := FieldText(Field(verse, "number"));
      var words := Field(verse, "words");
      var commentaries := Field(verse, "commentaries");
      VerseContentChecked(t, file, verse).warnings == t.warnings
        + (if IsArray(words) then WordsWarnings(file, number, Elements(words))
           else [Entry(Warning, WordsMissing(number), Some(file))])
        + (if Truthy(commentaries) then PendingWarnings(file, number, commentaries.value, CheckedCommentators)
           else [Entry(Warning, CommentariesMissing(number), Some(file))])
  {
    var number := FieldText(Field(verse, "number"));
    var words := Field(verse, "words");
    var commentaries := Field(verse, "commentaries");
    var t5 := if IsArray(words) then WordsChecked(t, file, number, Elements(words))
              else Logged(t, Entry(Warning, WordsMissing(number), Some(file)));
    if IsArray(words) {
      WordsCheckedEntries(t, file, number, Elements(words));
    }
    if Truthy(commentaries) {
      CommentariesCheckedEntries(t5, file, number, commentaries.value, CheckedCommentators);
    }
  }

  /** The errors one verse logs, in order: no number, no hebrew array,
      then its words' errors. */
  function VerseErrors(file: string, verse: Json): seq<Entry> {
    var number := FieldText(Field(verse, "number"));
    var words := Field(verse, "words");
    (if Truthy(Field(verse, "number")) then [] else [Entry(Error, VerseNumberMissing, Some(file))])
    + (if IsArray(Field(verse, "hebrew")) then [] else [Entry(Error, HebrewMissing(number), Some(file))])
    + (if IsArray(words) then WordsErrors(file, number, Elements(words)) else [])
  }

  /** The warnings one verse logs, in order: no translation, then no word
      analysis or its words' warnings, then no commentaries or the pending
      commentators. */
  function VerseWarnings(file: string, verse: Json): seq<Entry> {
    var number := FieldText(Field(verse, "number"));
    var words := Field(verse, "words");
    var commentaries := Field(verse, "commentaries");
    (if Truthy(Field(verse, "russian")) then [] else [Entry(Warning, TranslationMissing(number), Some(file))])
    + (if IsArray(words) then WordsWarnings(file, number, Elements(words))
       else [Entry(Warning, WordsMissing(number), Some(file))])
    + (if Truthy(commentaries) then PendingWarnings(file, number, commentaries.value, CheckedCommentators)
       else [Entry(Warning, CommentariesMissing(number), Some(file))])
  }

  /** A verse without errors: it has a number and a hebrew array, and every
      word of its `words` array (if any) has its hebrew. */
  predicate VerseClean(verse: Json) {
    var words := Elements(Field(verse, "words"));
    && Truthy(Field(verse, "number"))
    && IsArray(Field(verse, "hebrew"))
    && forall i :: 0 <= i < |words| ==> Truthy(Field(words[i], "hebrew"))
  }

  /** A verse logs no error exactly when it is clean. */
  lemma VerseErrorsEmpty(file: string, verse: Json)
    ensures VerseErrors(file, verse) == [] <==> VerseClean(verse)
  {
    WordsErrorsEmpty(file, FieldText(Field(verse, "number")), Elements(Field(verse, "words")));
  }

  /** The checks of one verse, in source order: number, hebrew, russian,
      words, commentaries. */
  function VerseChecked(t: Tally, file: string, verse: Json): (u: Tally)
    ensures Extends(t, u)
    ensures u.stats == t.stats.(
      verses := t.stats.verses + 1,
      words := t.stats.words + WordCount(verse),
      emptyVerses := t.stats.emptyVerses + PlaceholderCount(Elements(Field(verse, "words"))),
      missingTranslations := t.stats.missingTranslations + (if Truthy(Field(verse, "russian")) then 0 else 1),
      missingCommentaries := t.stats.missingCommentaries + (if Truthy(Field(verse, "commentaries")) then 0 else 1))
  {
    VerseContentChecked(VerseFieldsChecked(t, file, verse), file, verse)
  }

  /** One verse appends exactly its own errors and warnings. */
  lemma VerseCheckedEntries(t: Tally, file: string, verse: Json)
    ensures VerseChecked(t, file, verse).errors == t.errors + VerseErrors(file, verse)
    ensures VerseChecked(t, file, verse).warnings == t.warnings + VerseWarnings(file, verse)
  {
    VerseCheckedErrors(t, file, verse);
    VerseCheckedWarnings(t, file, verse);
  }

  lemma VerseCheckedErrors(t: Tally, file: string, verse: Json)
    ensures VerseChecked(t, file, verse).errors == t.errors + VerseErrors(file, verse)
  {
    var number := FieldText(Field(verse, "number"));
    var words := Field(verse, "words");
    var noNumber := if Truthy(Field(verse, "number")) then [] else [Entry(Error, VerseNumberMissing, Some(file))];
    var noHebrew := if IsArray(Field(verse, "hebrew")) then [] else [Entry(Error, HebrewMissing(number), Some(file))];
    var wordErrors := if IsArray(words) then WordsErrors(file, number, Elements(words)) else [];
    var u1 := VerseFieldsChecked(t, file, verse);
    assert u1.errors == t.errors + noNumber + noHebrew;
    VerseContentEntries(u1, file, verse);
    assert VerseContentChecked(u1, file, verse).errors == u1.errors + wordErrors;
    AppendAssoc(t.errors, noNumber, noHebrew);
    AppendAssoc(t.errors, noNumber + noHebrew, wordErrors);
  }

  lemma VerseCheckedWarnings(t: Tally, file: string, verse: Json)
    ensures VerseChecked(t, file, verse).warnings == t.warnings + VerseWarnings(file, verse)
  {
    var number := FieldText(Field(verse, "number"));
    var words := Field(verse, "words");
    var commentaries := Field(verse, "commentaries");
    var noRussian := if Truthy(Field(verse, "russian")) then [] else [Entry(Warning, TranslationMissing(number), Some(file))];
    var wordWarnings := if IsArray(words) then WordsWarnings(file, number, Elements(words))
                        else [Entry(Warning, WordsMissing(number), Some(file))];
    var commentaryWarnings := if Truthy(commentaries) then PendingWarnings(file, number, commentaries.value, CheckedCommentators)
                              else [Entry(Warning, CommentariesMissing(number), Some(file))];
    var u1 := VerseFieldsChecked(t, file, verse);
    assert u1.warnings == t.warnings + noRussian;
    VerseContentEntries(u1, file, verse);
    assert VerseContentChecked(u1, file, verse).warnings == u1.warnings + wordWarnings + commentaryWarnings;
    AppendAssoc(t.warnings + noRussian, wordWarnings, commentaryWarnings);
    AppendAssoc(t.warnings, noRussian, wordWarnings + commentaryWarnings);
    AppendAssoc(noRussian, wordWarnings, commentaryWarnings);
  }

  lemma VersesStep(t: Tally, file: string, verses: seq<Json>, i: nat)
    requires i < |verses|
    ensures VersesChecked(t, file, verses[..i + 1]) == VerseChecked(VersesChecked(t, file, verses[..i]), file, verses[i])
  {
    assert verses[..i + 1][..i] == verses[..i];
  }

  /** The errors of a chapter's verses, verse after verse. */
  function VersesErrors(file: string, verses: seq<Json>): seq<Entry> {
    if verses == [] then []
    else VersesErrors(file, verses[..|verses| - 1]) + VerseErrors(file, verses[|verses| - 1])
  }

  /** The warnings of a chapter's verses, verse after verse. */
  function VersesWarnings(file: string, verses: seq<Json>): seq<Entry> {
    if verses == [] then []
    else VersesWarnings(file, verses[..|verses| - 1]) + VerseWarnings(file, verses[|verses| - 1])
  }

  /** A chapter's verses log no error exactly when every verse is clean. */
  lemma {:induction false} VersesErrorsEmpty(file: string, verses: seq<Json>)
    ensures VersesErrors(file, verses) == [] <==> forall i :: 0 <= i < |verses| ==> VerseClean(verses[i])
  {
    if verses != [] {
      var init := verses[..|verses| - 1];
      VersesErrorsEmpty(file, init);
      VerseErrorsEmpty(file, verses[|verses| - 1]);
      assert forall i :: 0 <= i < |init| ==> init[i] == verses[i];
    }
  }

  /** The verse checks over a chapter's verses, in order: each verse's
      entries appended after those of the verses before it. */
  function VersesChecked(t: Tally, file: string, verses: seq<Json>): (u: Tally)
    ensures Extends(t, u)
  {
    if verses == [] then t
    else VerseChecked(VersesChecked(t, file, verses[..|verses| - 1]), file, verses[|verses| - 1])
  }

  /** A chapter's verses append exactly their entries, verse by verse. */
  lemma {:induction false} VersesCheckedEntries(t: Tally, file: string, verses: seq<Json>)
    ensures VersesChecked(t, file, verses).errors == t.errors + VersesErrors(file, verses)
    ensures VersesChecked(t, file, verses).warnings == t.warnings + VersesWarnings(file, verses)
  {
    if verses != [] {
      var init := verses[..|verses| - 1];
      var last := verses[|verses| - 1];
      VersesCheckedEntries(t, file, init);
      VerseCheckedEntries(VersesChecked(t, file, init), file, last);
      AppendAssoc(t.errors, VersesErrors(file, init), VerseErrors(file, last));
      AppendAssoc(t.warnings, VersesWarnings(file, init), VerseWarnings(file, last));
    }
  }

  /** The total number of words over a chapter's verses. */
  function TotalWords(verses: seq<Json>): nat {
    if verses == [] then 0 else TotalWords(verses[..|verses| - 1]) + WordCount(verses[|verses| - 1])
  }

  /** The number of placeholder words over a chapter's verses. */
  function TotalPlaceholders(verses: seq<Json>): nat {
    if verses == [] then 0
    else TotalPlaceholders(verses[..|verses| - 1]) + PlaceholderCount(Elements(Field(verses[|verses| - 1], "words")))
  }

  /** The number of verses without a truthy `russian`. */
  function UntranslatedCount(verses: seq<Json>): nat {
    if verses == [] then 0
    else UntranslatedCount(verses[..|verses| - 1]) + if Truthy(Field(verses[|verses| - 1], "russian")) then 0 else 1
  }

  /** Over a chapter, `stats.verses` grows by the number of verses,
      `stats.words` by the number of words, `emptyVerses` by the number of
      placeholder words and `missingTranslations` by the number of verses
      without a translation. */
  lemma {:induction false} VersesCounted(t: Tally, file: string, verses: seq<Json>)
    ensures var u := VersesChecked(t, file, verses);
      && u.stats.verses == t.stats.verses + |verses|
      && u.stats.words == t.stats.words + TotalWords(verses)
      && u.stats.emptyVerses == t.stats.emptyVerses + TotalPlaceholders(verses)
      && u.stats.missingTranslations == t.stats.missingTranslations + UntranslatedCount(verses)
      && u.stats.books == t.stats.books && u.stats.chapters == t.stats.chapters
  {
    if verses != [] {
      VersesCounted(t, file, verses[..|verses| - 1]);
    }
  }

  /** `validateChapter`: a missing or unparsable chapter file logs its one
      error and yields null; a file that parses goes on to
      `ChapterBodyChecked`. */
  function ChapterChecked(t: Tally, files: Files, bookId: string, chapterNum: Json): (r: (Tally, Option<Json>))
    ensures Extends(t, r.0)
    ensures r.1.Some? ==> IsArray(Field(r.1.value, "verses"))
    ensures var path := ChapterPath(bookId, chapterNum);
      path !in files ==> r == (t.(errors := t.errors
        + [Entry(Error, FileMissing(bookId + " глава " + JsText(chapterNum)), Some(path))]), None)
    ensures var path := ChapterPath(bookId, chapterNum);
      path in files && files[path].Unparsable? ==>
        r == (t.(errors := t.errors + [Entry(Error, JsonParseFailed, Some(path))]), None)
  {
    var path := ChapterPath(bookId, chapterNum);
    var (t1, chapter) := JsonFileChecked(t, files, path, bookId + " глава " + JsText(chapterNum));
    ChapterBodyChecked(t1, path, chapter)
  }

  /** `validateChapter` once the file at `path` is read: a falsy chapter
      ends it with nothing logged; a truthy one is counted, and then logs
      the one `VersesArrayMissing` error when it has no `verses` array, or
      else exactly its verses' entries. */
  function ChapterBodyChecked(t: Tally, path: string, chapter: Option<Json>): (r: (Tally, Option<Json>))
    ensures Extends(t, r.0)
    ensures r.1.Some? ==> IsArray(Field(r.1.value, "verses"))
    ensures !Truthy(chapter) ==> r == (t, None)
    ensures Truthy(chapter) && !IsArray(Field(chapter.value, "verses")) ==>
      && r.1.None?
      && r.0.errors == t.errors + [Entry(Error, VersesArrayMissing, Some(path))]
      && r.0.warnings == t.warnings
  {
    if !Truthy(chapter) then (t, None)
    else
      var t2 := t.(stats := t.stats.(chapters := t.stats.chapters + 1));
      if !IsArray(Field(chapter.value, "verses")) then
        (Logged(t2, Entry(Error, VersesArrayMissing, Some(path))), None)
      else (VersesChecked(t2, path, Elements(Field(chapter.value, "verses"))), chapter)
  }

  /** A truthy chapter with a `verses` array is returned, after exactly its
      verses' entries. */
  lemma ChapterBodyEntries(t: Tally, path: string, chapter: Option<Json>)
    requires Truthy(chapter) && IsArray(Field(chapter.value, "verses"))
    ensures var r := ChapterBodyChecked(t, path, chapter);
      var verses := Elements(Field(chapter.value, "verses"));
      && r.1 == chapter
      && r.0.errors == t.errors + VersesErrors(path, verses)
      && r.0.warnings == t.warnings + VersesWarnings(path, verses)
  {
    var t2 := t.(stats := t.stats.(chapters := t.stats.chapters + 1));
    VersesCheckedEntries(t2, path, Elements(Field(chapter.value, "verses")));
  }

  /** A chapter file that loads raises `stats.chapters` by exactly one,
      whatever it holds; one that does not load leaves it. */
  lemma ChapterCounted(t: Tally, files: Files, bookId: string, chapterNum: Json)
    ensures var path := ChapterPath(bookId, chapterNum);
      var loaded := path in files && files[path].Parsed? && Truthy(Some(files[path].data));
      ChapterChecked(t, files, bookId, chapterNum).0.stats.chapters
        == t.stats.chapters + if loaded then 1 else 0
  {
    var path := ChapterPath(bookId, chapterNum);
    var read := JsonFileChecked(t, files, path, bookId + " глава " + JsText(chapterNum));
    ChapterBodyCounted(read.0, path, read.1);
  }

  lemma ChapterBodyCounted(t: Tally, path: string, chapter: Option<Json>)
    ensures ChapterBodyChecked(t, path, chapter).0.stats.chapters == t.stats.chapters + if Truthy(chapter) then 1 else 0
  {
    if Truthy(chapter) && IsArray(Field(chapter.value, "verses")) {
      var t2 := t.(stats := t.stats.(chapters := t.stats.chapters + 1));
      var verses := Elements(Field(chapter.value, "verses"));
      assert ChapterBodyChecked(t, path, chapter).0 == VersesChecked(t2, path, verses);
      VersesKeepChapters(t2, path, verses);
    }
  }

  lemma VersesKeepChapters(t: Tally, file: string, verses: seq<Json>)
    ensures VersesChecked(t, file, verses).stats.chapters == t.stats.chapters
  {
    VersesCounted(t, file, verses);
  }

  // ---------------------------------------------------------------------
  // Commentators, lexicon and the whole run

  function CommentatorEntriesChecked(t: Tally, entries: seq<Json>): (u: Tally)
    ensures Extends(t, u) && u.stats == t.stats && u.warnings == t.warnings
  {
    if entries == [] then t
    else
      var c := entries[|entries| - 1];
      RequiredChecked(CommentatorEntriesChecked(t, entries[..|entries| - 1]),
        Commentator(OwnerId(c)), c, CommentatorFields, CommentatorsPath)
  }

  lemma CommentatorEntriesStep(t: Tally, entries: seq<Json>, i: nat)
    requires i < |entries|
    ensures CommentatorEntriesChecked(t, entries[..i + 1])
            == RequiredChecked(CommentatorEntriesChecked(t, entries[..i]),
                 Commentator(OwnerId(entries[i])), entries[i], CommentatorFields, CommentatorsPath)
  {
    assert entries[..i + 1][..i] == entries[..i];
  }

  /** `validateCommentators`: returned only when truthy with a
      `commentators` array, after the required-field checks. */
  function CommentatorsChecked(t: Tally, files: Files): (r: (Tally, Option<Json>))
    ensures Extends(t, r.0) && r.0.stats == t.stats && r.0.warnings == t.warnings
    ensures r.1.Some? ==> IsArray(Field(r.1.value, "commentators"))
  {
    var (t1, index) := JsonFileChecked(t, files, CommentatorsPath, "индекс комментаторов");
    if !Truthy(index) then (t1, None)
    else if !IsArray(Field(index.value, "commentators")) then
      (Logged(t1, Entry(Error, CommentatorsArrayMissing, Some(CommentatorsPath))), None)
    else
      var entries := Elements(Field(index.value, "commentators"));
      var t2 := CommentatorEntriesChecked(t1, entries);
      (Logged(t2, Entry(Info, CommentatorsFound(|entries|), None)), index)
  }

  /** `validateLexicon`: the metadata location first, then the old one
      with a warning to move it, else one error. */
  function LexiconChecked(t: Tally, files: Files): (r: (Tally, Option<Json>))
    ensures Extends(t, r.0) && r.0.stats == t.stats
    ensures LexiconPath !in files && OldLexiconPath !in files ==>
      r.1.None? && r.0.errors == t.errors + [Entry(Error, LexiconNotFound, None)]
    ensures LexiconPath !in files && OldLexiconPath in files ==>
      Entry(Warning, LexiconAtOldPath, Some(OldLexiconPath)) in r.0.warnings
  {
    if LexiconPath in files || OldLexiconPath in files then
      var (t1, lexicon) :=
        if LexiconPath in files then JsonFileChecked(t, files, LexiconPath, "лексикон (новое местоположение)")
        else
          var (l, lx) := JsonFileChecked(t, files, OldLexiconPath, "лексикон (старое местоположение)");
          (Logged(l, Entry(Warning, LexiconAtOldPath, Some(OldLexiconPath))), lx);
      if Truthy(lexicon) then (Logged(t1, Entry(Info, LexiconWords(KeyCount(lexicon.value)), None)), lexicon)
      else (t1, lexicon)
    else
      (Logged(t, Entry(Error, LexiconNotFound, None)), None)
  }

  /** The chapter checks over a book's `availableChapters`, in order. */
  function ChaptersChecked(t: Tally, files: Files, bookId: string, chapters: seq<Json>): (u: Tally)
    ensures Extends(t, u)
  {
    if chapters == [] then t
    else ChapterChecked(ChaptersChecked(t, files, bookId, chapters[..|chapters| - 1]), files, bookId, chapters[|chapters| - 1]).0
  }

  lemma ChaptersStep(t: Tally, files: Files, bookId: string, chapters: seq<Json>, i: nat)
    requires i < |chapters|
    ensures ChaptersChecked(t, files, bookId, chapters[..i + 1])
            == ChapterChecked(ChaptersChecked(t, files, bookId, chapters[..i]), files, bookId, chapters[i]).0
  {
    assert chapters[..i + 1][..i] == chapters[..i];
  }

  /** The directory name of a book entry: its `id` interpolated. */
  function BookDir(book: Json): string {
    FieldText(Field(book, "id"))
  }

  /** One book of `validateAll`: its metadata, then its listed chapters when
      `availableChapters` is an array. */
  function BookChecked(t: Tally, files: Files, book: Json): (u: Tally)
    ensures Extends(t, u)
  {
    var id := BookDir(book);
    var (t1, md) := MetadataChecked(t, files, id);
    if md.Some? && IsArray(Field(md.value, "availableChapters")) then
      ChaptersChecked(t1, files, id, Elements(Field(md.value, "availableChapters")))
    else t1
  }

  /** The book checks over the index's books, in order. */
  function BooksChecked(t: Tally, files: Files, books: seq<Json>): (u: Tally)
    ensures Extends(t, u)
  {
    if books == [] then t
    else BookChecked(BooksChecked(t, files, books[..|books| - 1]), files, books[|books| - 1])
  }

  lemma BooksStep(t: Tally, files: Files, books: seq<Json>, i: nat)
    requires i < |books|
    ensures BooksChecked(t, files, books[..i + 1]) == BookChecked(BooksChecked(t, files, books[..i]), files, books[i])
  {
    assert books[..i + 1][..i] == books[..i];
  }

  /** `validateAll` up to the report: an unreadable books index ends the run
      with one more error; otherwise every book, the commentators and the
      lexicon are checked. */
  function AllChecked(t: Tally, files: Files): (u: Tally)
    ensures Extends(t, u)
    ensures BooksIndexPath !in files ==> |u.errors| == |t.errors| + 2 && u.warnings == t.warnings
  {
    var (t1, index) := BooksIndexChecked(t, files);
    if index.None? then Logged(t1, Entry(Error, IndexUnreadable, None))
    else
      var t2 := BooksChecked(t1, files, Elements(Field(index.value, "books")));
      LexiconChecked(CommentatorsChecked(t2, files).0, files).0
  }

  /** `getReport`. */
  function ReportOf(t: Tally): (r: Report)
    ensures r.success <==> t.errors == []
    ensures r.errors == t.errors && r.warnings == t.warnings && r.stats == t.stats
  {
    Report(|t.errors| == 0, t.errors, t.warnings, t.stats)
  }

  /** The process exit code of `main`. */
  function ExitCode(r: Report): (code: int)
    ensures code == 0 <==> r.success
    ensures code == 0 || code == 1
  {
    if r.success then 0 else 1
  }

  /** Warnings and counters never decide the exit code: two runs with the
      same errors exit alike. */
  lemma WarningsDoNotFail(t: Tally, u: Tally)
    requires t.errors == u.errors
    ensures ExitCode(ReportOf(t)) == ExitCode(ReportOf(u))
  {
  }

  /** A run that logs any error fails, whatever came before it. */
  lemma {:induction false} ErrorsAreFinal(t: Tally, files: Files)
    requires t.errors != []
    ensures ExitCode(ReportOf(AllChecked(t, files))) == 1
  {
    var u := AllChecked(t, files);
    assert t.errors <= u.errors;
    assert u.errors != [];
  }

  /** A data tree with no books index fails the run. */
  lemma MissingIndexFails(files: Files)
    requires BooksIndexPath !in files
    ensures ExitCode(ReportOf(AllChecked(Tally([], [], InitialStats), files))) == 1
  {
  }

  // ---------------------------------------------------------------------
  // A data tree that passes

  lemma AppendSame(a: seq<Entry>, b: seq<Entry>)
    ensures a + b == a <==> b == []
  {
    if a + b == a {
      assert |b| == 0;
    }
  }

  /** A log that ends where it began grew at no step in between. */
  lemma Squeeze(a: seq<Entry>, b: seq<Entry>, c: seq<Entry>)
    requires a <= b && b <= c
    ensures c == a <==> b == a && c == b
  {
    if c == a {
      assert |b| == |a|;
    }
  }

  /** An entry with every one of `fields` present and truthy. */
  predicate EntryComplete(entry: Json, fields: seq<string>) {
    forall f :: f in fields ==> Truthy(Field(entry, f))
  }

  /** The required-field check adds no error exactly when the entry is
      complete. */
  lemma RequiredCheckedClean(t: Tally, owner: Owner, obj: Json, fields: seq<string>, file: string)
    ensures RequiredChecked(t, owner, obj, fields, file).errors == t.errors <==> EntryComplete(obj, fields)
  {
    RequiredAllPresent(obj, fields);
  }

  lemma CompleteSplit(entries: seq<Json>, fields: seq<string>)
    requires entries != []
    ensures var n := |entries| - 1;
      (forall i :: 0 <= i < |entries| ==> EntryComplete(entries[i], fields))
      <==> (forall i :: 0 <= i < n ==> EntryComplete(entries[..n][i], fields)) && EntryComplete(entries[n], fields)
  {
    var n := |entries| - 1;
    assert forall i :: 0 <= i < n ==> entries[..n][i] == entries[i];
  }

  lemma {:induction false} BookEntriesClean(t: Tally, books: seq<Json>)
    ensures BookEntriesChecked(t, books).errors == t.errors
      <==> forall i :: 0 <= i < |books| ==> EntryComplete(books[i], BookFields)
  {
    if books != [] {
      var n := |books| - 1;
      var b := books[n];
      var m := BookEntriesChecked(t, books[..n]);
      BookEntriesClean(t, books[..n]);
      RequiredCheckedClean(m, Book(OwnerId(b)), b, BookFields, BooksIndexPath);
      CompleteSplit(books, BookFields);
      Squeeze(t.errors, m.errors, BookEntriesChecked(t, books).errors);
    }
  }

  lemma {:induction false} CommentatorEntriesClean(t: Tally, entries: seq<Json>)
    ensures CommentatorEntriesChecked(t, entries).errors == t.errors
      <==> forall i :: 0 <= i < |entries| ==> EntryComplete(entries[i], CommentatorFields)
  {
    if entries != [] {
      var n := |entries| - 1;
      var c := entries[n];
      var m := CommentatorEntriesChecked(t, entries[..n]);
      CommentatorEntriesClean(t, entries[..n]);
      RequiredCheckedClean(m, Commentator(OwnerId(c)), c, CommentatorFields, CommentatorsPath);
      CompleteSplit(entries, CommentatorFields);
      Squeeze(t.errors, m.errors, CommentatorEntriesChecked(t, entries).errors);
    }
  }

  /** The books index parses and holds a `books` array. */
  predicate IndexReadable(files: Files) {
    && BooksIndexPath in files && files[BooksIndexPath].Parsed?
    && IsArray(Field(files[BooksIndexPath].data, "books"))
  }

  /** The book entries of a readable index. */
  function IndexBooks(files: Files): seq<Json> {
    if IndexReadable(files) then Elements(Field(files[BooksIndexPath].data, "books")) else []
  }

  /** The index check returns the index and logs no error exactly when the
      index is readable and every book entry is complete. */
  lemma IndexClean(t: Tally, files: Files)
    ensures var r := BooksIndexChecked(t, files);
      r.1.Some? && r.0.errors == t.errors
      <==> IndexReadable(files) && forall i :: 0 <= i < |IndexBooks(files)| ==> EntryComplete(IndexBooks(files)[i], BookFields)
  {
    if IndexReadable(files) {
      var t2 := t.(stats := t.stats.(books := |IndexBooks(files)|));
      BookEntriesClean(t2, IndexBooks(files));
    }
  }

  /** A book's metadata file parses to a truthy value. */
  predicate MetadataReadable(files: Files, bookId: string) {
    var path := MetadataPath(bookId);
    path in files && files[path].Parsed? && Truthy(Some(files[path].data))
  }

  /** A book's metadata that draws no error: present, parsable and, when
      truthy, complete. */
  predicate MetadataClean(files: Files, bookId: string) {
    var path := MetadataPath(bookId);
    && path in files && files[path].Parsed?
    && (Truthy(Some(files[path].data)) ==> EntryComplete(files[path].data, MetadataFields))
  }

  lemma MetadataCleanIff(t: Tally, files: Files, bookId: string)
    ensures MetadataChecked(t, files, bookId).0.errors == t.errors <==> MetadataClean(files, bookId)
  {
    var path := MetadataPath(bookId);
    if MetadataReadable(files, bookId) {
      RequiredCheckedClean(t, BookMetadata, files[path].data, MetadataFields, path);
    }
  }

  /** A chapter that draws no error: its file is present and parsable and,
      when truthy, holds a `verses` array of clean verses. */
  predicate ChapterClean(files: Files, bookId: string, chapterNum: Json) {
    var path := ChapterPath(bookId, chapterNum);
    && path in files && files[path].Parsed?
    && (Truthy(Some(files[path].data)) ==>
          var verses := Elements(Field(files[path].data, "verses"));
          && IsArray(Field(files[path].data, "verses"))
          && forall i :: 0 <= i < |verses| ==> VerseClean(verses[i]))
  }

  lemma ChapterCleanIff(t: Tally, files: Files, bookId: string, chapterNum: Json)
    ensures ChapterChecked(t, files, bookId, chapterNum).0.errors == t.errors <==> ChapterClean(files, bookId, chapterNum)
  {
    var path := ChapterPath(bookId, chapterNum);
    if path in files && files[path].Parsed? {
      var data := files[path].data;
      if Truthy(Some(data)) {
        if IsArray(Field(data, "verses")) {
          var verses := Elements(Field(data, "verses"));
          ChapterBodyEntries(t, path, Some(data));
          VersesErrorsEmpty(path, verses);
          AppendSame(t.errors, VersesErrors(path, verses));
        } else {
          AppendSame(t.errors, [Entry(Error, VersesArrayMissing, Some(path))]);
        }
      }
    }
  }

  /** A book's chapters add no error exactly when every one is clean. */
  lemma {:induction false} ChaptersCleanIff(t: Tally, files: Files, bookId: string, chapters: seq<Json>)
    ensures ChaptersChecked(t, files, bookId, chapters).errors == t.errors
      <==> forall i :: 0 <= i < |chapters| ==> ChapterClean(files, bookId, chapters[i])
  {
    if chapters != [] {
      var n := |chapters| - 1;
      var m := ChaptersChecked(t, files, bookId, chapters[..n]);
      ChaptersCleanIff(t, files, bookId, chapters[..n]);
      ChapterCleanIff(m, files, bookId, chapters[n]);
      ChaptersCleanSplit(files, bookId, chapters);
      Squeeze(t.errors, m.errors, ChaptersChecked(t, files, bookId, chapters).errors);
    }
  }

  lemma ChaptersCleanSplit(files: Files, bookId: string, chapters: seq<Json>)
    requires chapters != []
    ensures var n := |chapters| - 1;
      (forall i :: 0 <= i < |chapters| ==> ChapterClean(files, bookId, chapters[i]))
      <==> (forall i :: 0 <= i < n ==> ChapterClean(files, bookId, chapters[..n][i])) && ChapterClean(files, bookId, chapters[n])
  {
    var n := |chapters| - 1;
    assert forall i :: 0 <= i < n ==> chapters[..n][i] == chapters[i];
  }

  /** A book that draws no error: clean metadata and, when it lists its
      chapters in an array, clean chapters. */
  predicate BookClean(files: Files, book: Json) {
    var id := BookDir(book);
    var path := MetadataPath(id);
    && MetadataClean(files, id)
    && (Truthy(Some(files[path].data)) && IsArray(Field(files[path].data, "availableChapters")) ==>
          var chapters := Elements(Field(files[path].data, "availableChapters"));
          forall i :: 0 <= i < |chapters| ==> ChapterClean(files, id, chapters[i]))
  }

  lemma BookCleanIff(t: Tally, files: Files, book: Json)
    ensures BookChecked(t, files, book).errors == t.errors <==> BookClean(files, book)
  {
    var id := BookDir(book);
    var (t1, md) := MetadataChecked(t, files, id);
    MetadataCleanIff(t, files, id);
    if md.Some? && IsArray(Field(md.value, "availableChapters")) {
      var chapters := Elements(Field(md.value, "availableChapters"));
      ChaptersCleanIff(t1, files, id, chapters);
      Squeeze(t.errors, t1.errors, ChaptersChecked(t1, files, id, chapters).errors);
    }
  }

  lemma {:induction false} BooksCleanIff(t: Tally, files: Files, books: seq<Json>)
    ensures BooksChecked(t, files, books).errors == t.errors
      <==> forall i :: 0 <= i < |books| ==> BookClean(files, books[i])
  {
    if books != [] {
      var init := books[..|books| - 1];
      var m := BooksChecked(t, files, init);
      BooksCleanIff(t, files, init);
      BookCleanIff(m, files, books[|books| - 1]);
      Squeeze(t.errors, m.errors, BooksChecked(t, files, books).errors);
      assert forall i :: 0 <= i < |init| ==> init[i] == books[i];
    }
  }

  /** A commentators index that draws no error: present, parsable and,
      when truthy, a `commentators` array of complete entries. */
  predicate CommentatorsClean(files: Files) {
    && CommentatorsPath in files && files[CommentatorsPath].Parsed?
    && (Truthy(Some(files[CommentatorsPath].data)) ==>
          var entries := Elements(Field(files[CommentatorsPath].data, "commentators"));
          && IsArray(Field(files[CommentatorsPath].data, "commentators"))
          && forall i :: 0 <= i < |entries| ==> EntryComplete(entries[i], CommentatorFields))
  }

  lemma CommentatorsCleanIff(t: Tally, files: Files)
    ensures CommentatorsChecked(t, files).0.errors == t.errors <==> CommentatorsClean(files)
  {
    if CommentatorsPath in files && files[CommentatorsPath].Parsed? {
      CommentatorEntriesClean(t, Elements(Field(files[CommentatorsPath].data, "commentators")));
    }
  }

  /** A lexicon that draws no error: the file at the metadata location
      parses, or there is none there and the one at the old location
      parses. */
  predicate LexiconClean(files: Files) {
    if LexiconPath in files then files[LexiconPath].Parsed?
    else OldLexiconPath in files && files[OldLexiconPath].Parsed?
  }

  lemma LexiconCleanIff(t: Tally, files: Files)
    ensures LexiconChecked(t, files).0.errors == t.errors <==> LexiconClean(files)
  {
  }

  /** A data tree on which the validator logs no error: a readable books
      index whose every book entry is complete and whose every book is
      clean, clean commentators and a clean lexicon. */
  predicate DataClean(files: Files) {
    && IndexReadable(files)
    && (forall i :: 0 <= i < |IndexBooks(files)| ==> EntryComplete(IndexBooks(files)[i], BookFields))
    && (forall i :: 0 <= i < |IndexBooks(files)| ==> BookClean(files, IndexBooks(files)[i]))
    && CommentatorsClean(files)
    && LexiconClean(files)
  }

  /** The whole run adds no error exactly when the tree is clean. */
  lemma AllCleanIff(t: Tally, files: Files)
    ensures AllChecked(t, files).errors == t.errors <==> DataClean(files)
  {
    var (t1, index) := BooksIndexChecked(t, files);
    IndexClean(t, files);
    if index.Some? {
      var books := IndexBooks(files);
      var t2 := BooksChecked(t1, files, books);
      var t3 := CommentatorsChecked(t2, files).0;
      var t4 := LexiconChecked(t3, files).0;
      BooksCleanIff(t1, files, books);
      CommentatorsCleanIff(t2, files);
      LexiconCleanIff(t3, files);
      Squeeze(t.errors, t1.errors, t2.errors);
      Squeeze(t.errors, t2.errors, t3.errors);
      Squeeze(t.errors, t3.errors, t4.errors);
    } else {
      AppendSame(t1.errors, [Entry(Error, IndexUnreadable, None)]);
    }
  }

  /** The exit code of a run from a fresh validator is 0 exactly when the
      data tree is clean. */
  lemma CleanDataSucceeds(files: Files)
    ensures ExitCode(ReportOf(AllChecked(Tally([], [], InitialStats), files))) == 0 <==> DataClean(files)
  {
    AllCleanIff(Tally([], [], InitialStats), files);
  }

  // ---------------------------------------------------------------------
  // Where the script throws

  /** The index of the first null element, or the length when there is
      none: where a `forEach` whose body reads a property of the element
      throws. */
  function FirstNull(xs: seq<Json>): (k: nat)
    ensures k <= |xs|
    ensures k < |xs| ==> xs[k] == JNull
    ensures forall j :: 0 <= j < k ==> xs[j] != JNull
  {
    if xs == [] then 0
    else if xs[0] == JNull then 0
    else 1 + FirstNull(xs[1..])
  }

  /** `entry.includes(...)` on a truthy commentary entry that is neither a
      string nor an array throws. */
  predicate CommentaryThrows(entry: Option<Json>) {
    Truthy(entry) && !entry.value.JStr? && !entry.value.JArr?
  }

  predicate SomeCommentaryThrows(commentaries: Json, names: seq<string>) {
    exists i :: 0 <= i < |names| && CommentaryThrows(Field(commentaries, names[i]))
  }

  /** The first of `names` whose entry throws, or the length. */
  function FirstThrowingCommentary(commentaries: Json, names: seq<string>): (k: nat)
    ensures k <= |names|
    ensures k < |names| ==> CommentaryThrows(Field(commentaries, names[k]))
    ensures forall j :: 0 <= j < k ==> !CommentaryThrows(Field(commentaries, names[j]))
  {
    if names == [] then 0
    else if CommentaryThrows(Field(commentaries, names[0])) then 0
    else 1 + FirstThrowingCommentary(commentaries, names[1..])
  }

  /** After its fields, a verse throws on a null word (`word.hebrew`) or on
      a commentary entry that cannot be searched. */
  predicate VerseContentThrows(verse: Json) {
    || (IsArray(Field(verse, "words")) && JNull in Elements(Field(verse, "words")))
    || (Truthy(Field(verse, "commentaries"))
        && SomeCommentaryThrows(Field(verse, "commentaries").value, CheckedCommentators))
  }

  /** A null verse throws at `verse.number`. */
  predicate VerseThrows(verse: Json) {
    verse.JNull? || VerseContentThrows(verse)
  }

  predicate SomeVerseThrows(verses: seq<Json>) {
    exists i :: 0 <= i < |verses| && VerseThrows(verses[i])
  }

  /** The first verse that throws, or the length. */
  function FirstThrowingVerse(verses: seq<Json>): (k: nat)
    ensures k <= |verses|
    ensures k < |verses| ==> VerseThrows(verses[k])
    ensures forall j :: 0 <= j < k ==> !VerseThrows(verses[j])
  {
    if verses == [] then 0
    else if VerseThrows(verses[0]) then 0
    else 1 + FirstThrowingVerse(verses[1..])
  }

  /** A null chapter number throws at `toString`; a chapter that loads
      with a `verses` array throws when one of its verses does. */
  predicate ChapterThrows(files: Files, bookId: string, chapterNum: Json) {
    || chapterNum.JNull?
    || (var path := ChapterPath(bookId, chapterNum);
        && path in files && files[path].Parsed?
        && IsArray(Field(files[path].data, "verses"))
        && SomeVerseThrows(Elements(Field(files[path].data, "verses"))))
  }

  /** The first chapter that throws, or the length. */
  function FirstThrowingChapter(files: Files, bookId: string, chapters: seq<Json>): (k: nat)
    ensures k <= |chapters|
    ensures k < |chapters| ==> ChapterThrows(files, bookId, chapters[k])
    ensures forall j :: 0 <= j < k ==> !ChapterThrows(files, bookId, chapters[j])
  {
    if chapters == [] then 0
    else if ChapterThrows(files, bookId, chapters[0]) then 0
    else 1 + FirstThrowingChapter(files, bookId, chapters[1..])
  }

  predicate SomeChapterThrows(files: Files, bookId: string, chapters: seq<Json>) {
    exists i :: 0 <= i < |chapters| && ChapterThrows(files, bookId, chapters[i])
  }

  /** `path.join` accepts only strings as the book directory. */
  predicate BookIdIsString(book: Json) {
    Field(book, "id").Some? && Field(book, "id").value.JStr?
  }

  /** A book throws without a string `id`, or when one of the chapters its
      readable metadata lists throws. */
  predicate BookThrows(files: Files, book: Json) {
    || !BookIdIsString(book)
    || (var id := BookDir(book);
        && MetadataReadable(files, id)
        && IsArray(Field(files[MetadataPath(id)].data, "availableChapters"))
        && SomeChapterThrows(files, id, Elements(Field(files[MetadataPath(id)].data, "availableChapters"))))
  }

  /** The first book that throws, or the length. */
  function FirstThrowingBook(files: Files, books: seq<Json>): (k: nat)
    ensures k <= |books|
    ensures k < |books| ==> BookThrows(files, books[k])
    ensures forall j :: 0 <= j < k ==> !BookThrows(files, books[j])
  {
    if books == [] then 0
    else if BookThrows(files, books[0]) then 0
    else 1 + FirstThrowingBook(files, books[1..])
  }

  predicate SomeBookThrows(files: Files, books: seq<Json>) {
    exists i :: 0 <= i < |books| && BookThrows(files, books[i])
  }

  /** The commentators index holds a null entry. */
  predicate CommentatorsThrow(files: Files) {
    && CommentatorsPath in files && files[CommentatorsPath].Parsed?
    && IsArray(Field(files[CommentatorsPath].data, "commentators"))
    && JNull in Elements(Field(files[CommentatorsPath].data, "commentators"))
  }

  /** `validateAll` throws: the books index is readable and holds a null
      entry or a book that throws, or the commentators index holds a null
      entry. */
  predicate RunThrows(files: Files) {
    && IndexReadable(files)
    && (JNull in IndexBooks(files) || SomeBookThrows(files, IndexBooks(files)) || CommentatorsThrow(files))
  }

  // ---------------------------------------------------------------------
  // The validator object

  class DataValidator {
    const files: Files
    var errors: seq<Entry>
    var warnings: seq<Entry>
    var stats: Stats

    /** The three mutable fields as one value. */
    function Now(): Tally
      reads this
    {
      Tally(errors, warnings, stats)
    }

    constructor (files: Files)
      ensures this.files == files && Now() == Tally([], [], InitialStats)
    {
      this.files := files;
      errors := [];
      warnings := [];
      stats := InitialStats;
    }

    method Log(e: Entry)
      modifies this
      ensures Now() == Logged(old(Now()), e)
    {
      if e.level == Error {
        errors := errors + [e];
      } else if e.level == Warning {
        warnings := warnings + [e];
      }
    }

    method ValidateJsonFile(path: string, description: string) returns (data: Option<Json>)
      modifies this
      ensures (Now(), data) == JsonFileChecked(old(Now()), files, path, description)
    {
      if path !in files {
        Log(Entry(Error, FileMissing(description), Some(path)));
        return None;
      }
      match files[path]
      case Unparsable =>
        Log(Entry(Error, JsonParseFailed, Some(path)));
        return None;
      case Parsed(d) =>
        Log(Entry(Info, FileValid(description), Some(path)));
        return Some(d);
    }

    method CheckRequired(owner: Owner, obj: Json, fields: seq<string>, file: string)
      modifies this
      ensures Now() == RequiredChecked(old(Now()), owner, obj, fields, file)
    {
      ghost var t0 := Now();
      var i := 0;
      while i < |fields|
        invariant 0 <= i <= |fields|
        invariant Now() == RequiredChecked(t0, owner, obj, fields[..i], file)
      {
        assert fields[..i + 1][..i] == fields[..i];
        if !Truthy(Field(obj, fields[i])) {
          Log(Entry(Error, FieldMissing(owner, fields[i]), Some(file)));
        }
        i := i + 1;
      }
      assert fields[..|fields|] == fields;
    }

    /** `validateBooksIndex`; a null book entry throws at `book[field]`. */
    method ValidateBooksIndex() returns (index: Option<Json>, thrown: bool)
      modifies this
      ensures thrown == (IndexReadable(files) && JNull in IndexBooks(files))
      ensures !thrown ==> (Now(), index) == BooksIndexChecked(old(Now()), files)
    {
      thrown := false;
      index := ValidateJsonFile(BooksIndexPath, "индекс книг");
      if !Truthy(index) {
        return None, false;
      }
      var books := Field(index.value, "books");
      if !IsArray(books) {
        Log(Entry(Error, BooksArrayMissing, Some(BooksIndexPath)));
        return None, false;
      }
      var entries := Elements(books);
      stats := stats.(books := |entries|);
      thrown := CheckBookEntries(entries);
      if thrown {
        return;
      }
      Log(Entry(Info, BooksFound(|entries|), None));
    }

    /** The `forEach` over the index's books: each one's required fields,
        up to the first null entry, which throws at `book[field]`. */
    method CheckBookEntries(entries: seq<Json>) returns (thrown: bool)
      modifies this
      ensures thrown == (JNull in entries)
      ensures !thrown ==> Now() == BookEntriesChecked(old(Now()), entries)
    {
      ghost var t0 := Now();
      var stop := FirstNull(entries);
      thrown := stop < |entries|;
      var i := 0;
      while i < stop
        invariant 0 <= i <= stop
        invariant Now() == BookEntriesChecked(t0, entries[..i])
      {
        BookEntriesStep(t0, entries, i);
        CheckRequired(Book(OwnerId(entries[i])), entries[i], BookFields, BooksIndexPath);
        i := i + 1;
      }
      if !thrown {
        assert entries[..|entries|] == entries;
      }
    }

    method ValidateBookMetadata(bookId: string) returns (md: Option<Json>)
      modifies this
      ensures (Now(), md) == MetadataChecked(old(Now()), files, bookId)
    {
      var path := MetadataPath(bookId);
      md := ValidateJsonFile(path, "метаданные " + bookId);
      if !Truthy(md) {
        return None;
      }
      CheckRequired(BookMetadata, md.value, MetadataFields, path);
    }

    /** One word: it is counted, then a null word throws at `word.hebrew`. */
    method CheckWord(file: string, verse: string, position: nat, word: Json) returns (thrown: bool)
      modifies this
      ensures thrown == word.JNull?
      ensures !thrown ==> Now() == WordChecked(old(Now()), file, verse, position, word)
    {
      stats := stats.(words := stats.words + 1);
      if word.JNull? {
        return true;
      }
      var hebrew := Field(word, "hebrew");
      if !Truthy(hebrew) {
        Log(Entry(Error, WordHebrewMissing(position, verse), Some(file)));
      }
      if hebrew == Some(JStr(Placeholder)) {
        Log(Entry(Warning, WordUnfilled(position, verse), Some(file)));
        stats := stats.(emptyVerses := stats.emptyVerses + 1);
      }
      if LacksTranslations(word) {
        Log(Entry(Warning, WordTranslationsMissing(FieldText(hebrew)), Some(file)));
      }
      return false;
    }

    /** `verse.words.forEach`, up to the first null word, which throws at
        `word.hebrew`. */
    method CheckWords(file: string, verse: string, words: seq<Json>) returns (thrown: bool)
      modifies this
      ensures thrown == (JNull in words)
      ensures !thrown ==> Now() == WordsChecked(old(Now()), file, verse, words)
    {
      ghost var t0 := Now();
      var stop := FirstNull(words);
      thrown := stop < |words|;
      var i := 0;
      while i < stop
        invariant 0 <= i <= stop
        invariant Now() == WordsChecked(t0, file, verse, words[..i])
      {
        WordsStep(t0, file, verse, words, i);
        var _ := CheckWord(file, verse, i + 1, words[i]);
        i := i + 1;
      }
      if !thrown {
        assert words[..|words|] == words;
      }
    }

    /** The commentators' entries, up to the first that is truthy but
        neither a string nor an array, which throws at `.includes`. */
    method CheckCommentaries(file: string, verse: string, commentaries: Json) returns (thrown: bool)
      modifies this
      ensures thrown == SomeCommentaryThrows(commentaries, CheckedCommentators)
      ensures !thrown ==> Now() == CommentariesChecked(old(Now()), file, verse, commentaries, CheckedCommentators)
    {
      ghost var t0 := Now();
      var names := CheckedCommentators;
      var stop := FirstThrowingCommentary(commentaries, names);
      thrown := stop < |names|;
      var i := 0;
      while i < stop
        invariant 0 <= i <= stop
        invariant Now() == CommentariesChecked(t0, file, verse, commentaries, names[..i])
      {
        CommentariesStep(t0, file, verse, commentaries, names, i);
        if CommentaryPending(Field(commentaries, names[i])) {
          Log(Entry(Warning, CommentaryMissing(names[i], verse), Some(file)));
        }
        i := i + 1;
      }
      if !thrown {
        assert names[..|names|] == names;
      }
    }

    /** The verse is counted, then a null verse throws at `verse.number`. */
    method CheckVerseFields(file: string, verse: Json) returns (thrown: bool)
      modifies this
      ensures thrown == verse.JNull?
      ensures !thrown ==> Now() == VerseFieldsChecked(old(Now()), file, verse)
    {
      stats := stats.(verses := stats.verses + 1);
      if verse.JNull? {
        return true;
      }
      var number := FieldText(Field(verse, "number"));
      if !Truthy(Field(verse, "number")) {
        Log(Entry(Error, VerseNumberMissing, Some(file)));
      }
      if !IsArray(Field(verse, "hebrew")) {
        Log(Entry(Error, HebrewMissing(number), Some(file)));
      }
      if !Truthy(Field(verse, "russian")) {
        Log(Entry(Warning, TranslationMissing(number), Some(file)));
        stats := stats.(missingTranslations := stats.missingTranslations + 1);
      }
      return false;
    }

    method CheckVerseContent(file: string, verse: Json) returns (thrown: bool)
      modifies this
      ensures thrown == VerseContentThrows(verse)
      ensures !thrown ==> Now() == VerseContentChecked(old(Now()), file, verse)
    {
      var number := FieldText(Field(verse, "number"));
      if !IsArray(Field(verse, "words")) {
        Log(Entry(Warning, WordsMissing(number), Some(file)));
      } else {
        thrown := CheckWords(file, number, Elements(Field(verse, "words")));
        if thrown {
          return;
        }
      }
      if !Truthy(Field(verse, "commentaries")) {
        Log(Entry(Warning, CommentariesMissing(number), Some(file)));
        stats := stats.(missingCommentaries := stats.missingCommentaries + 1);
        thrown := false;
      } else {
        thrown := CheckCommentaries(file, number, Field(verse, "commentaries").value);
      }
    }

    method CheckVerse(file: string, verse: Json) returns (thrown: bool)
      modifies this
      ensures thrown == VerseThrows(verse)
      ensures !thrown ==> Now() == VerseChecked(old(Now()), file, verse)
    {
      thrown := CheckVerseFields(file, verse);
      if thrown {
        return;
      }
      thrown := CheckVerseContent(file, verse);
    }

    /** `validateChapter`; a null chapter number throws at `toString`
        before anything else, a verse as `CheckVerse` says. */
    method ValidateChapter(bookId: string, chapterNum: Json) returns (chapter: Option<Json>, thrown: bool)
      modifies this
      ensures thrown == ChapterThrows(files, bookId, chapterNum)
      ensures !thrown ==> (Now(), chapter) == ChapterChecked(old(Now()), files, bookId, chapterNum)
    {
      if chapterNum.JNull? {
        return None, true;
      }
      thrown := false;
      var path := ChapterPath(bookId, chapterNum);
      chapter := ValidateJsonFile(path, bookId + " глава " + JsText(chapterNum));
      if !Truthy(chapter) {
        return None, false;
      }
      stats := stats.(chapters := stats.chapters + 1);
      if !IsArray(Field(chapter.value, "verses")) {
        Log(Entry(Error, VersesArrayMissing, Some(path)));
        return None, false;
      }
      thrown := CheckVerses(path, Elements(Field(chapter.value, "verses")));
    }

    /** `chapter.verses.forEach`, up to the first verse that throws. */
    method CheckVerses(file: string, verses: seq<Json>) returns (thrown: bool)
      modifies this
      ensures thrown == SomeVerseThrows(verses)
      ensures !thrown ==> Now() == VersesChecked(old(Now()), file, verses)
    {
      ghost var t0 := Now();
      var stop := FirstThrowingVerse(verses);
      thrown := stop < |verses|;
      var i := 0;
      while i < stop
        invariant 0 <= i <= stop
        invariant Now() == VersesChecked(t0, file, verses[..i])
      {
        VersesStep(t0, file, verses, i);
        var _ := CheckVerse(file, verses[i]);
        i := i + 1;
      }
      if !thrown {
        assert verses[..|verses|] == verses;
      }
    }

    /** `validateCommentators`; a null entry throws at `commentator[field]`. */
    method ValidateCommentators() returns (index: Option<Json>, thrown: bool)
      modifies this
      ensures thrown == CommentatorsThrow(files)
      ensures !thrown ==> (Now(), index) == CommentatorsChecked(old(Now()), files)
    {
      thrown := false;
      index := ValidateJsonFile(CommentatorsPath, "индекс комментаторов");
      if !Truthy(index) {
        return None, false;
      }
      if !IsArray(Field(index.value, "commentators")) {
        Log(Entry(Error, CommentatorsArrayMissing, Some(CommentatorsPath)));
        return None, false;
      }
      var entries := Elements(Field(index.value, "commentators"));
      thrown := CheckCommentatorEntries(entries);
      if thrown {
        return;
      }
      Log(Entry(Info, CommentatorsFound(|entries|), None));
    }

    /** The `forEach` over the commentators: each one's required fields,
        up to the first null entry, which throws at `commentator[field]`. */
    method CheckCommentatorEntries(entries: seq<Json>) returns (thrown: bool)
      modifies this
      ensures thrown == (JNull in entries)
      ensures !thrown ==> Now() == CommentatorEntriesChecked(old(Now()), entries)
    {
      ghost var t0 := Now();
      var stop := FirstNull(entries);
      thrown := stop < |entries|;
      var i := 0;
      while i < stop
        invariant 0 <= i <= stop
        invariant Now() == CommentatorEntriesChecked(t0, entries[..i])
      {
        CommentatorEntriesStep(t0, entries, i);
        CheckRequired(Commentator(OwnerId(entries[i])), entries[i], CommentatorFields, CommentatorsPath);
        i := i + 1;
      }
      if !thrown {
        assert entries[..|entries|] == entries;
      }
    }

    method ValidateLexicon() returns (lexicon: Option<Json>)
      modifies this
      ensures (Now(), lexicon) == LexiconChecked(old(Now()), files)
    {
      if LexiconPath in files {
        lexicon := ValidateJsonFile(LexiconPath, "лексикон (новое местоположение)");
      } else if OldLexiconPath in files {
        lexicon := ValidateJsonFile(OldLexiconPath, "лексикон (старое местоположение)");
        Log(Entry(Warning, LexiconAtOldPath, Some(OldLexiconPath)));
      } else {
        Log(Entry(Error, LexiconNotFound, None));
        return None;
      }
      if Truthy(lexicon) {
        Log(Entry(Info, LexiconWords(KeyCount(lexicon.value)), None));
      }
    }

    /** The chapters of a book in order, up to the first that throws. */
    method ValidateChapters(bookId: string, chapters: seq<Json>) returns (thrown: bool)
      modifies this
      ensures thrown == SomeChapterThrows(files, bookId, chapters)
      ensures !thrown ==> Now() == ChaptersChecked(old(Now()), files, bookId, chapters)
    {
      ghost var t0 := Now();
      var stop := FirstThrowingChapter(files, bookId, chapters);
      thrown := stop < |chapters|;
      var i := 0;
      while i < stop
        invariant 0 <= i <= stop
        invariant Now() == ChaptersChecked(t0, files, bookId, chapters[..i])
      {
        ChaptersStep(t0, files, bookId, chapters, i);
        var _, _ := ValidateChapter(bookId, chapters[i]);
        i := i + 1;
      }
      if !thrown {
        assert chapters[..|chapters|] == chapters;
      }
    }

    /** One book of `validateAll`; an entry without a string `id` throws,
        at `book.russian` when it is null and in `path.join` otherwise. */
    method ValidateBook(book: Json) returns (thrown: bool)
      modifies this
      ensures thrown == BookThrows(files, book)
      ensures !thrown ==> Now() == BookChecked(old(Now()), files, book)
    {
      if !BookIdIsString(book) {
        return true;
      }
      var id := BookDir(book);
      var md := ValidateBookMetadata(id);
      thrown := false;
      if md.Some? && IsArray(Field(md.value, "availableChapters")) {
        thrown := ValidateChapters(id, Elements(Field(md.value, "availableChapters")));
      }
    }

    /** The `forEach` over the indexed books, up to the first that throws. */
    method ValidateBooks(books: seq<Json>) returns (thrown: bool)
      modifies this
      ensures thrown == SomeBookThrows(files, books)
      ensures !thrown ==> Now() == BooksChecked(old(Now()), files, books)
    {
      ghost var t0 := Now();
      var stop := FirstThrowingBook(files, books);
      thrown := stop < |books|;
      var i := 0;
      while i < stop
        invariant 0 <= i <= stop
        invariant Now() == BooksChecked(t0, files, books[..i])
      {
        BooksStep(t0, files, books, i);
        var _ := ValidateBook(books[i]);
        i := i + 1;
      }
      if !thrown {
        assert books[..|books|] == books;
      }
    }

    /** `validateAll`: the report, or none when the run throws. */
    method ValidateAll() returns (report: Option<Report>)
      modifies this
      ensures report.None? <==> RunThrows(files)
      ensures report.Some? ==> Now() == AllChecked(old(Now()), files) && report.value == ReportOf(Now())
    {
      var index, thrown := ValidateBooksIndex();
      if thrown {
        return None;
      }
      if index.None? {
        Log(Entry(Error, IndexUnreadable, None));
        return Some(ReportOf(Now()));
      }
      thrown := ValidateBooks(Elements(Field(index.value, "books")));
      if thrown {
        return None;
      }
      var _, commentatorsThrew := ValidateCommentators();
      if commentatorsThrew {
        return None;
      }
      var _ := ValidateLexicon();
      report := Some(ReportOf(Now()));
    }
  }

  /** `main`: a fresh validator and the whole run. A run that throws ends
      the process with exit code 1 and writes no report; otherwise the
      report is written and the code is 0 exactly when the data tree is
      clean. */
  method RunValidation(files: Files) returns (report: Option<Report>, code: int)
    ensures RunThrows(files) ==> report.None? && code == 1
    ensures !RunThrows(files) ==> report == Some(ReportOf(AllChecked(Tally([], [], InitialStats), files)))
    ensures code == 0 <==> !RunThrows(files) && DataClean(files)
  {
    var v := new DataValidator(files);
    report := v.ValidateAll();
    if report.None? {
      return None, 1;
    }
    code := ExitCode(report.value);
    CleanDataSucceeds(files);
  }
}
