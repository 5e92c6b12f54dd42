/** The pure heart of the loader in `src/utils/modularDataLoader.ts`:
    which parasha a (chapter, verse) belongs to, which verses a parasha
    shows of a chapter, and the lexicon lookup with niqqud stripped.
    Every JavaScript comparison against a missing `startVerse`/`endVerse`
    (`verse >= undefined`) is false, and `if (verse)` treats 0 as absent. */
module Resolver {
  import opened Wrappers
  import opened Text
  import opened Ranges
  import opened TorahTypes

  /** `chapter >= p.startChapter && chapter <= p.endChapter`. */
  predicate Covers(p: Parasha, chapter: int) {
    p.startChapter <= chapter <= p.endChapter
  }

  /** `v >= o` where `o` may be `undefined`. */
  predicate AtLeast(v: int, o: Option<int>) {
    o.Some? && v >= o.value
  }

  /** `v <= o` where `o` may be `undefined`. */
  predicate AtMost(v: int, o: Option<int>) {
    o.Some? && v <= o.value
  }

  /** `if (verse)`: present and non-zero. */
  predicate Truthy(verse: Option<int>) {
    verse.Some? && verse.value != 0
  }

  /** The test the disambiguation loop applies to one candidate: the verse
      lies in the first chapter of the parasha (from `startVerse` on, and up
      to `endVerse` if it is also the last chapter), or in its last chapter
      up to `endVerse`. */
  predicate Claims(p: Parasha, chapter: int, verse: int) {
    (chapter == p.startChapter && AtLeast(verse, p.startVerse)
      && ((chapter == p.endChapter && AtMost(verse, p.endVerse)) || chapter != p.endChapter))
    || (chapter == p.endChapter && AtMost(verse, p.endVerse) && chapter != p.startChapter)
  }

  /** `bookParashas.filter(p => covers chapter)`, order kept. */
  function Candidates(ps: seq<Parasha>, chapter: int): (c: seq<Parasha>)
    ensures |c| <= |ps|
    ensures forall p :: p in c <==> p in ps && Covers(p, chapter)
  {
    if ps == [] then []
    else if Covers(ps[0], chapter) then [ps[0]] + Candidates(ps[1..], chapter)
    else Candidates(ps[1..], chapter)
  }

  /** The filter keeps order: the candidates of two lists in a row are
      the first list's candidates followed by the second's. */
  lemma {:induction false} CandidatesAppend(a: seq<Parasha>, b: seq<Parasha>, chapter: int)
    ensures Candidates(a + b, chapter) == Candidates(a, chapter) + Candidates(b, chapter)
  {
    if a == [] {
      assert a + b == b;
    } else {
      assert (a + b)[1..] == a[1..] + b;
      CandidatesAppend(a[1..], b, chapter);
    }
  }

  /** The `for ... of candidateParashas` loop: the first candidate that
      claims the verse. */
  function FirstClaim(c: seq<Parasha>, chapter: int, verse: int): (r: Option<nat>)
    ensures r.Some? ==>
              && r.value < |c| && Claims(c[r.value], chapter, verse)
              && forall j :: 0 <= j < r.value ==> !Claims(c[j], chapter, verse)
    ensures r.None? ==> forall j :: 0 <= j < |c| ==> !Claims(c[j], chapter, verse)
  {
    if c == [] then None
    else if Claims(c[0], chapter, verse) then Some(0)
    else match FirstClaim(c[1..], chapter, verse)
      case None => None
      case Some(k) => Some(k + 1)
  }

  /** `getParashaByChapter(bookId, chapter, verse?)` on the parashot of the
      book: no candidate gives null, a sole candidate is returned, several
      are told apart by the verse, and the first candidate is the fallback. */
  function ParashaByChapter(ps: seq<Parasha>, chapter: int, verse: Option<int>): (r: Option<Parasha>)
    ensures r.Some? ==> r.value in ps && Covers(r.value, chapter)
    ensures r.None? <==> forall p :: p in ps ==> !Covers(p, chapter)
  {
    var c := Candidates(ps, chapter);
    if |c| == 0 then None
    else if |c| == 1 then Some(c[0])
    else if Truthy(verse) then
      match FirstClaim(c, chapter, verse.value)
      case Some(k) => Some(c[k])
      case None => Some(c[0])
    else Some(c[0])
  }

  lemma ParashaByChapterSole(ps: seq<Parasha>, chapter: int, verse: Option<int>)
    requires |Candidates(ps, chapter)| == 1
    ensures ParashaByChapter(ps, chapter, verse) == Some(Candidates(ps, chapter)[0])
  {
  }

  /** With several candidates and a truthy verse, the first candidate (in
      list order) that claims the verse wins. */
  lemma ParashaByChapterFirstClaim(ps: seq<Parasha>, chapter: int, verse: int, i: nat)
    requires verse != 0
    requires |Candidates(ps, chapter)| >= 2
    requires i < |Candidates(ps, chapter)|
    requires Claims(Candidates(ps, chapter)[i], chapter, verse)
    requires forall j :: 0 <= j < i ==> !Claims(Candidates(ps, chapter)[j], chapter, verse)
    ensures ParashaByChapter(ps, chapter, Some(verse)) == Some(Candidates(ps, chapter)[i])
  {
    var c := Candidates(ps, chapter);
    var r := FirstClaim(c, chapter, verse);
    assert r == Some(i);
  }

  /** Without a verse (or with verse 0), or when no candidate claims it,
      the first candidate is returned. */
  lemma ParashaByChapterFallback(ps: seq<Parasha>, chapter: int, verse: Option<int>)
    requires |Candidates(ps, chapter)| >= 2
    requires !Truthy(verse) || forall p :: p in Candidates(ps, chapter) ==> !Claims(p, chapter, verse.value)
    ensures ParashaByChapter(ps, chapter, verse) == Some(Candidates(ps, chapter)[0])
  {
    var c := Candidates(ps, chapter);
    if Truthy(verse) {
      assert FirstClaim(c, chapter, verse.value).None? by {
        assert forall j :: 0 <= j < |c| ==> c[j] in c;
      }
    }
  }

  /** `bookParashas.find(p => p.id === parashaId)`. */
  function FindById(ps: seq<Parasha>, id: string): (r: Option<Parasha>)
    ensures r.Some? ==> r.value in ps && r.value.id == id
    ensures r.None? <==> forall p :: p in ps ==> p.id != id
    ensures r.Some? ==>
      exists i :: 0 <= i < |ps| && ps[i] == r.value && forall j :: 0 <= j < i ==> ps[j].id != id
  {
    if ps == [] then None
    else if ps[0].id == id then Some(ps[0])
    else FindById(ps[1..], id)
  }

  /** `structure.books[bookId.toLowerCase()]?.chaptersData?.[key]`. */
  function ChapterEntry(s: TorahStructure, book: string, key: string): Option<ChapterData> {
    var b := ToLowerAscii(book);
    if b in s.books && key in s.books[b].chaptersData then Some(s.books[b].chaptersData[key])
    else None
  }

  /** The chapter's verse count in the structure, looked up under the
      lower-cased book id and the chapter number as a string. */
  function ChapterCount(s: TorahStructure, book: string, chapter: nat): Option<int> {
    match ChapterEntry(s, book, NatToString(chapter))
    case Some(d) => Some(d.verses)
    case None => None
  }

  /** `{start, end}`; either bound is `undefined` when the parasha lacks it. */
  datatype VerseRange = VerseRange(start: Option<int>, end: Option<int>)

  /** `getParashaVerseRange(bookId, chapter, parashaId)`. `structure` is
      the fetched `torah-structure.json`, `None` when that fetch fails (the
      error is caught and the result is null). */
  function ParashaVerseRange(ps: seq<Parasha>, structure: Option<TorahStructure>,
                             book: string, chapter: nat, id: string): (r: Option<VerseRange>)
    ensures FindById(ps, id).None? ==> r.None?
    ensures r.Some? ==> Covers(FindById(ps, id).value, chapter)
  {
    match FindById(ps, id)
    case None => None
    case Some(p) =>
      if chapter < p.startChapter || chapter > p.endChapter then None
      else if chapter == p.startChapter && chapter == p.endChapter then
        Some(VerseRange(p.startVerse, p.endVerse))
      else if chapter == p.startChapter
           && structure.Some? && ChapterCount(structure.value, book, chapter).Some? then
        Some(VerseRange(p.startVerse, ChapterCount(structure.value, book, chapter)))
      else if chapter == p.endChapter then
        // the first chapter without a structure entry never gets here:
        // it is not also the last one, so it falls through to the middle case
        Some(VerseRange(Some(1), p.endVerse))
      else if structure.Some? && ChapterCount(structure.value, book, chapter).Some? then
        Some(VerseRange(Some(1), ChapterCount(structure.value, book, chapter)))
      else None
  }

  /** The five outcomes of the verse range, one per kind of chapter. */
  lemma ParashaVerseRangeCases(ps: seq<Parasha>, structure: Option<TorahStructure>,
                               book: string, chapter: nat, id: string)
    requires FindById(ps, id).Some?
    ensures var p := FindById(ps, id).value;
      var n := if structure.Some? then ChapterCount(structure.value, book, chapter) else None;
      var r := ParashaVerseRange(ps, structure, book, chapter, id);
      && (!Covers(p, chapter) ==> r.None?)
      && (chapter == p.startChapter && chapter == p.endChapter ==>
            r == Some(VerseRange(p.startVerse, p.endVerse)))
      && (Covers(p, chapter) && chapter == p.startChapter && chapter != p.endChapter ==>
            r == if n.Some? then Some(VerseRange(p.startVerse, n)) else None)
      && (Covers(p, chapter) && chapter == p.endChapter && chapter != p.startChapter ==>
            r == Some(VerseRange(Some(1), p.endVerse)))
      && (p.startChapter < chapter < p.endChapter ==>
            r == if n.Some? then Some(VerseRange(Some(1), n)) else None)
  {
  }

  /** `for (let i = range.start; i <= range.end; i++)`: no verse at all
      when either bound is `undefined`. */
  function RangeVerses(r: VerseRange): seq<int> {
    if r.start.Some? && r.end.Some? then Consecutive(r.start.value, r.end.value) else []
  }

  /** The last fallback of `getAvailableVerses`: verse counts of chapters
      1-10 of the first three books, looked up with the book id as given. */
  function StandardVerseCount(book: string, chapter: int): (r: Option<int>)
    ensures r.Some? ==> 1 <= chapter <= 10 && r.value > 0
    ensures r.Some? <==> (book == "genesis" || book == "exodus" || book == "leviticus") && 1 <= chapter <= 10
  {
    if !(1 <= chapter <= 10) then None
    else if book == "genesis" then Some([31, 25, 24, 26, 32, 22, 24, 22, 29, 32][chapter - 1])
    else if book == "exodus" then Some([22, 25, 22, 31, 23, 30, 25, 28, 35, 29][chapter - 1])
    else if book == "leviticus" then Some([17, 16, 17, 35, 26, 23, 38, 36, 24, 20][chapter - 1])
    else None
  }

  /** `getAvailableVerses(bookId, chapter, parashaId?)`: the parasha's range
      when it has one, else the whole chapter from the structure, else the
      standard table, else `[1]`; a failed structure fetch also gives `[1]`. */
  function AvailableVerses(ps: seq<Parasha>, structure: Option<TorahStructure>,
                           book: string, chapter: nat, id: Option<string>): seq<int>
  {
    var range := if id.Some? && id.value != "" then ParashaVerseRange(ps, structure, book, chapter, id.value) else None;
    if range.Some? then RangeVerses(range.value)
    else if structure.None? then [1]
    else match ChapterCount(structure.value, book, chapter)
      case Some(n) => Consecutive(1, n)
      case None =>
        match StandardVerseCount(book, chapter)
        case Some(n) => Consecutive(1, n)
        case None => [1]
  }

  /** When a parasha gives a range with both bounds, the verses are exactly
      the integers of that range, ascending. */
  lemma AvailableVersesInRange(ps: seq<Parasha>, structure: Option<TorahStructure>,
                               book: string, chapter: nat, id: string, s: int, e: int)
    requires id != ""
    requires ParashaVerseRange(ps, structure, book, chapter, id) == Some(VerseRange(Some(s), Some(e)))
    ensures var vs := AvailableVerses(ps, structure, book, chapter, Some(id));
      (forall v :: v in vs <==> s <= v <= e)
      && (forall j, k :: 0 <= j < k < |vs| ==> vs[j] < vs[k])
  {
  }

  /** Without a parasha range the list is never empty except when the
      structure gives a count of zero or less. */
  lemma AvailableVersesFallback(ps: seq<Parasha>, structure: Option<TorahStructure>,
                                book: string, chapter: nat, id: Option<string>)
    requires id.None? || id.value == "" || ParashaVerseRange(ps, structure, book, chapter, id.value).None?
    ensures var vs := AvailableVerses(ps, structure, book, chapter, id);
      && (structure.None? ==> vs == [1])
      && (structure.Some? && ChapterCount(structure.value, book, chapter).Some? ==>
            forall v :: v in vs <==> 1 <= v <= ChapterCount(structure.value, book, chapter).value)
      && (structure.Some? && ChapterCount(structure.value, book, chapter).None? ==>
            vs == if StandardVerseCount(book, chapter).Some?
                  then Consecutive(1, StandardVerseCount(book, chapter).value) else [1])
  {
  }

  /** A parasha that starts inside a chapter but has no `startVerse` shows
      no verse of that chapter at all. */
  lemma MissingStartVerseHidesChapter(ps: seq<Parasha>, structure: Option<TorahStructure>,
                                      book: string, chapter: nat, id: string)
    requires id != ""
    requires FindById(ps, id).Some?
    requires FindById(ps, id).value.startChapter == chapter
    requires FindById(ps, id).value.startVerse.None?
    requires ParashaVerseRange(ps, structure, book, chapter, id).Some?
    ensures AvailableVerses(ps, structure, book, chapter, Some(id)) == []
  {
    var r := ParashaVerseRange(ps, structure, book, chapter, id);
    assert r.value.start == FindById(ps, id).value.startVerse;
    assert AvailableVerses(ps, structure, book, chapter, Some(id)) == RangeVerses(r.value);
  }

  /** The resolver and the verse range agree: a verse that a parasha claims
      in a chapter (and that the chapter has) is among the verses that
      parasha shows for the chapter. */
  lemma ClaimedVerseIsAvailable(ps: seq<Parasha>, s: TorahStructure, book: string,
                                chapter: nat, verse: int, p: Parasha)
    requires p.id != "" && FindById(ps, p.id) == Some(p)
    requires Covers(p, chapter) && Claims(p, chapter, verse)
    requires ChapterCount(s, book, chapter).Some? && 1 <= verse <= ChapterCount(s, book, chapter).value
    ensures verse in AvailableVerses(ps, Some(s), book, chapter, Some(p.id))
  {
    var r := ParashaVerseRange(ps, Some(s), book, chapter, p.id);
    assert r.Some? && r.value.start.Some? && r.value.end.Some?;
    assert r.value.start.value <= verse <= r.value.end.value;
  }

  /** The vowel points and marks `searchWord` strips: U+05B0-U+05BC, U+05C1,
      U+05C2, U+05C4, U+05C5 and U+05C7. */
  predicate IsNiqqud(c: char) {
    ('\U{05B0}' <= c <= '\U{05BC}') || c == '\U{05C1}' || c == '\U{05C2}'
    || c == '\U{05C4}' || c == '\U{05C5}' || c == '\U{05C7}'
  }

  function StripNiqqud(s: string): (r: string)
    ensures |r| <= |s|
    ensures forall i :: 0 <= i < |r| ==> !IsNiqqud(r[i])
  {
    if s == [] then []
    else if IsNiqqud(s[0]) then StripNiqqud(s[1..])
    else [s[0]] + StripNiqqud(s[1..])
  }

  lemma {:induction false} StripNiqqudAppend(s: string, t: string)
    ensures StripNiqqud(s + t) == StripNiqqud(s) + StripNiqqud(t)
  {
    if s == [] {
      assert s + t == t;
    } else {
      assert (s + t)[0] == s[0];
      assert (s + t)[1..] == s[1..] + t;
      StripNiqqudAppend(s[1..], t);
    }
  }

  /** A word without niqqud is left as it is; in particular stripping twice
      is stripping once. */
  lemma {:induction false} StripNiqqudKeepsPlain(s: string)
    requires forall i :: 0 <= i < |s| ==> !IsNiqqud(s[i])
    ensures StripNiqqud(s) == s
  {
    if s != [] {
      StripNiqqudKeepsPlain(s[1..]);
    }
  }

  lemma StripNiqqudIdempotent(s: string)
    ensures StripNiqqud(StripNiqqud(s)) == StripNiqqud(s)
  {
    StripNiqqudKeepsPlain(StripNiqqud(s));
  }

  /** `lexicon[cleanWord] || lexicon[hebrew] || null`. */
  function LookupWord(lexicon: HebrewLexicon, hebrew: string): (r: Option<LexiconEntry>)
    ensures r.None? <==> StripNiqqud(hebrew) !in lexicon && hebrew !in lexicon
    ensures StripNiqqud(hebrew) in lexicon ==> r == Some(lexicon[StripNiqqud(hebrew)])
    ensures StripNiqqud(hebrew) !in lexicon && hebrew in lexicon ==> r == Some(lexicon[hebrew])
  {
    var clean := StripNiqqud(hebrew);
    if clean in lexicon then Some(lexicon[clean])
    else if hebrew in lexicon then Some(lexicon[hebrew])
    else None
  }

  /** The stand-in translation for a word the lexicon does not know. */
  const UnknownTranslation := Translation("неизвестно", Some("требует дополнительного анализа"), Some("неопределено"))

  /** `wordData?.meanings || [placeholder]`: an entry's meanings, even an
      empty list of them, else the single placeholder. */
  function WordTranslations(entry: Option<LexiconEntry>): (r: seq<Translation>)
    ensures entry.None? || entry.value.meanings.None? ==> r == [UnknownTranslation]
    ensures entry.Some? && entry.value.meanings.Some? ==> r == entry.value.meanings.value
  {
    if entry.Some? && entry.value.meanings.Some? then entry.value.meanings.value else [UnknownTranslation]
  }
}
