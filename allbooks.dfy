/** `scripts/createAllBooksStructure.js`: the planned layout of the five books
    (`TORAH_STRUCTURE`), the verse placeholder files and parasha metadata it
    writes under `public/data`, and the verse totals it reports. The file
    system is the `files` map of a `StructureBuilder`; timestamps and console
    output are not modelled. */
module AllBooks {
  import opened Wrappers
  import opened Text
  import opened Ranges

  /** One parasha of the plan: its chapters and, index by index, the number
      of verse files to create for each. */
  datatype ParashaPlan = ParashaPlan(id: string, chapters: seq<nat>, verses: seq<nat>)

  datatype BookPlan = BookPlan(hebrew: string, russian: string, parashas: seq<ParashaPlan>)

  /** `TORAH_STRUCTURE`, lines 16-101, in key order; one constant per book. */
  const TorahStructure: seq<(string, BookPlan)> := [
    ("genesis", GenesisPlan),
    ("exodus", ExodusPlan),
    ("leviticus", LeviticusPlan),
    ("numbers", NumbersPlan),
    ("deuteronomy", DeuteronomyPlan)
  ]

  const GenesisPlan: BookPlan := BookPlan("בראשית", "Берешит", [
      ParashaPlan("beresheet", [1, 2, 3, 4, 5, 6], [31, 25, 24, 26, 32, 8]),
      ParashaPlan("noach", [6, 7, 8, 9, 10, 11], [14, 24, 22, 29, 32, 32]),
      ParashaPlan("lech_lecha", [12, 13, 14, 15, 16, 17], [20, 18, 24, 21, 16, 27]),
      ParashaPlan("vayera", [18, 19, 20, 21, 22], [33, 38, 18, 34, 24]),
      ParashaPlan("chayei_sarah", [23, 24, 25], [20, 67, 18]),
      ParashaPlan("toldot", [25, 26, 27, 28], [16, 35, 46, 22]),
      ParashaPlan("vayetzei", [28, 29, 30, 31, 32], [22, 35, 43, 55, 3]),
      ParashaPlan("vayishlach", [32, 33, 34, 35, 36], [33, 20, 31, 29, 43]),
      ParashaPlan("vayeshev", [37, 38, 39, 40], [36, 30, 23, 23]),
      ParashaPlan("miketz", [41, 42, 43, 44], [57, 38, 34, 34]),
      ParashaPlan("vayigash", [44, 45, 46, 47], [34, 28, 34, 31]),
      ParashaPlan("vayechi", [47, 48, 49, 50], [31, 22, 33, 26])])

  const ExodusPlan: BookPlan := BookPlan("שמות", "Шмот", [
      ParashaPlan("shemot", [1, 2, 3, 4, 5, 6], [22, 25, 22, 31, 23, 13]),
      ParashaPlan("vaera", [6, 7, 8, 9], [17, 25, 28, 35]),
      ParashaPlan("bo", [10, 11, 12, 13], [29, 10, 51, 16]),
      ParashaPlan("beshalach", [13, 14, 15, 16, 17], [6, 31, 27, 36, 16]),
      ParashaPlan("yitro", [18, 19, 20], [27, 25, 23]),
      ParashaPlan("mishpatim", [21, 22, 23, 24], [37, 30, 33, 18]),
      ParashaPlan("terumah", [25, 26, 27], [40, 37, 21]),
      ParashaPlan("tetzaveh", [27, 28, 29, 30], [21, 43, 46, 10]),
      ParashaPlan("ki_tisa", [30, 31, 32, 33, 34], [28, 18, 35, 23, 35]),
      ParashaPlan("vayakhel", [35, 36, 37, 38], [35, 38, 29, 31]),
      ParashaPlan("pekudei", [38, 39, 40], [20, 43, 38])])

  const LeviticusPlan: BookPlan := BookPlan("ויקרא", "Ваикра", [
      ParashaPlan("vayikra", [1, 2, 3, 4, 5], [17, 16, 17, 35, 26]),
      ParashaPlan("tzav", [6, 7, 8], [23, 38, 36]),
      ParashaPlan("shemini", [9, 10, 11], [24, 20, 47]),
      ParashaPlan("tazria", [12, 13], [8, 59]),
      ParashaPlan("metzora", [14, 15], [57, 33]),
      ParashaPlan("acharei_mot", [16, 17, 18], [34, 16, 30]),
      ParashaPlan("kedoshim", [19, 20], [37, 27]),
      ParashaPlan("emor", [21, 22, 23, 24], [24, 33, 44, 23]),
      ParashaPlan("behar", [25], [55]),
      ParashaPlan("bechukotai", [26, 27], [46, 34])])

  const NumbersPlan: BookPlan := BookPlan("במדבר", "Бемидбар", [
      ParashaPlan("bamidbar", [1, 2, 3, 4], [54, 34, 51, 49]),
      ParashaPlan("nasso", [4, 5, 6, 7], [49, 31, 27, 89]),
      ParashaPlan("behaalotcha", [8, 9, 10, 11, 12], [26, 23, 36, 35, 16]),
      ParashaPlan("shelach", [13, 14, 15], [33, 45, 41]),
      ParashaPlan("korach", [16, 17, 18], [50, 28, 32]),
      ParashaPlan("chukat", [19, 20, 21, 22], [22, 29, 35, 1]),
      ParashaPlan("balak", [22, 23, 24, 25], [40, 30, 25, 18]),
      ParashaPlan("pinchas", [25, 26, 27, 28, 29, 30], [15, 65, 23, 31, 40, 17]),
      ParashaPlan("matot", [30, 31, 32], [17, 54, 42]),
      ParashaPlan("masei", [33, 34, 35, 36], [56, 29, 34, 13])])

  const DeuteronomyPlan: BookPlan := BookPlan("דברים", "Дварим", [
      ParashaPlan("devarim", [1, 2, 3], [46, 37, 29]),
      ParashaPlan("vaetchanan", [3, 4, 5, 6, 7], [22, 49, 30, 25, 26]),
      ParashaPlan("eikev", [7, 8, 9, 10, 11], [26, 20, 29, 22, 32]),
      ParashaPlan("reeh", [11, 12, 13, 14, 15, 16], [32, 32, 19, 29, 23, 22]),
      ParashaPlan("shoftim", [16, 17, 18, 19, 20, 21], [22, 20, 22, 21, 20, 23]),
      ParashaPlan("ki_teitzei", [21, 22, 23, 24, 25], [23, 29, 25, 22, 19]),
      ParashaPlan("ki_tavo", [26, 27, 28], [19, 26, 68]),
      ParashaPlan("nitzavim", [29, 30], [28, 20]),
      ParashaPlan("vayeilech", [31], [30]),
      ParashaPlan("haazinu", [32], [52]),
      ParashaPlan("vezot_haberachah", [33, 34], [29, 12])])

  /** `TORAH_STRUCTURE[bookId]`: the plan stored under that key, if any. */
  function PlanOf(table: seq<(string, BookPlan)>, bookId: string): (r: Option<BookPlan>)
    ensures r.Some? <==> exists i :: 0 <= i < |table| && table[i].0 == bookId
    ensures r.Some? ==> exists i :: 0 <= i < |table| && table[i] == (bookId, r.value)
  {
    if table == [] then None
    else if table[0].0 == bookId then Some(table[0].1)
    else
      var r := PlanOf(table[1..], bookId);
      assert forall i :: 1 <= i < |table| ==> table[i] == table[1..][i - 1];
      r
  }

  // ---------------------------------------------------------------------
  // Verse stubs (lines 106-166)
  // ---------------------------------------------------------------------

  datatype Translation = Translation(meaning: string, context: string, frequency: string)
  datatype StubWord = StubWord(hebrew: string, transliteration: string, translations: seq<Translation>)
  datatype StubCompleteness = StubCompleteness(words: string, translations: string, commentaries: string)
  datatype VerseStub = VerseStub(
    book: string, parasha: string, chapter: nat, verse: nat,
    hebrew: seq<string>, words: seq<StubWord>, commentaries: map<string, string>,
    dataVersion: string, completeness: StubCompleteness)

  const DataVersion := "3.0.0"

  const MeaningPrefix := "[перевод слова "
  const ContextPrefix := "[контекст для слова "
  const RashiPrefix := "[Комментарий Раши на стих "
  const RambanPrefix := "[Комментарий Рамбана на стих "

  /** `[placeholder_word_${verse}_${k}]`. */
  function PlaceholderWord(verse: nat, k: nat): string {
    "[placeholder_word_" + NatToString(verse) + "_" + NatToString(k) + "]"
  }

  /** `${verse}_${k}`, the suffix of the other placeholders of word k. */
  function WordTag(verse: nat, k: nat): string {
    NatToString(verse) + "_" + NatToString(k)
  }

  function StubWordOf(verse: nat, k: nat): StubWord {
    StubWord(PlaceholderWord(verse, k), "placeholder_" + WordTag(verse, k),
      [Translation(MeaningPrefix + WordTag(verse, k) + "]",
                   ContextPrefix + WordTag(verse, k) + "]", "common")])
  }

  /** `${chapter}:${verse}`. */
  function VerseRef(chapter: nat, verse: nat): string {
    NatToString(chapter) + ":" + NatToString(verse)
  }

  /** `createVerseStub`: three placeholder words, each listed in `hebrew`
      and again, in the same order, as a word with one common translation;
      Rashi and Ramban placeholders; every part marked "placeholder". */
  function VerseStubOf(bookId: string, parashaId: string, chapter: nat, verse: nat): (s: VerseStub)
    ensures s.book == bookId && s.parasha == parashaId && s.chapter == chapter && s.verse == verse
    ensures |s.hebrew| == |s.words| == 3
    ensures forall i :: 0 <= i < 3 ==>
      && s.words[i].hebrew == s.hebrew[i] == PlaceholderWord(verse, i + 1)
      && |s.words[i].translations| == 1
      && s.words[i].translations[0].frequency == "common"
    ensures s.commentaries.Keys == {"rashi", "ramban"}
    ensures s.dataVersion == "3.0.0"
    ensures s.completeness == StubCompleteness("placeholder", "placeholder", "placeholder")
  {
    VerseStub(bookId, parashaId, chapter, verse,
      [PlaceholderWord(verse, 1), PlaceholderWord(verse, 2), PlaceholderWord(verse, 3)],
      [StubWordOf(verse, 1), StubWordOf(verse, 2), StubWordOf(verse, 3)],
      map["rashi" := RashiPrefix + VerseRef(chapter, verse) + "]",
          "ramban" := RambanPrefix + VerseRef(chapter, verse) + "]"],
      DataVersion, StubCompleteness("placeholder", "placeholder", "placeholder"))
  }

  /** Two strings cut at the first `sep`, which neither head contains. */
  /** The first `sep` of `a + [sep] + x` is the one after `a`. */
  lemma {:induction false} FirstSeparator(a: string, x: string, sep: char)
    requires sep !in a
    ensures sep in a + [sep] + x && FirstIndexOf(a + [sep] + x, sep) == |a|
  {
    var l := a + [sep] + x;
    assert l[|a|] == sep;
    if a != [] {
      assert l[0] == a[0] != sep;
      assert l[1..] == a[1..] + [sep] + x;
      FirstSeparator(a[1..], x, sep);
    }
  }

  lemma SplitAtSeparator(a: string, x: string, c: string, y: string, sep: char)
    requires sep !in a && sep !in c
    requires a + [sep] + x == c + [sep] + y
    ensures a == c && x == y
  {
    var l := a + [sep] + x;
    FirstSeparator(a, x, sep);
    FirstSeparator(c, y, sep);
    assert a == l[..|a|] && c == l[..|c|];
    assert x == l[|a| + 1..] && y == l[|c| + 1..];
  }

  lemma DigitsHaveNo(s: string, c: char)
    requires IsDigits(s) && !IsDigit(c)
    ensures c !in s
  {
  }

  /** The placeholder words are all different: word k of verse v appears in
      no other verse and no other position. */
  lemma PlaceholdersDistinct(v: nat, k: nat, w: nat, j: nat)
    requires PlaceholderWord(v, k) == PlaceholderWord(w, j)
    ensures v == w && k == j
  {
    var p := "[placeholder_word_";
    var a := PlaceholderWord(v, k)[|p|..];
    assert a == NatToString(v) + ['_'] + (NatToString(k) + "]");
    assert a == NatToString(w) + ['_'] + (NatToString(j) + "]");
    DigitsHaveNo(NatToString(v), '_');
    DigitsHaveNo(NatToString(w), '_');
    SplitAtSeparator(NatToString(v), NatToString(k) + "]", NatToString(w), NatToString(j) + "]", '_');
    NatToStringInjective(v, w);
    var bk := NatToString(k) + "]";
    assert NatToString(k) == bk[..|bk| - 1];
    assert NatToString(j) == (NatToString(j) + "]")[..|bk| - 1];
    NatToStringInjective(k, j);
  }

  /** Stub words never collide: a word of the stub of verse `v` equals a
      word of the stub of verse `w` only when it is the same verse and the
      same position, so each stub's three words are distinct too. */
  lemma StubWordsDistinct(b: string, p: string, c: nat, v: nat, w: nat, i: nat, j: nat)
    requires i < 3 && j < 3
    requires VerseStubOf(b, p, c, v).hebrew[i] == VerseStubOf(b, p, c, w).hebrew[j]
    ensures v == w && i == j
  {
    PlaceholdersDistinct(v, i + 1, w, j + 1);
  }

  // ---------------------------------------------------------------------
  // Parasha metadata and file names (lines 178-219)
  // ---------------------------------------------------------------------

  datatype ParashaMetadata = ParashaMetadata(
    id: string, availableChapters: seq<nat>, totalChapters: nat, totalVerses: int, dataVersion: string)

  /** The metadata object of lines 200-207. */
  function MetadataOf(p: ParashaPlan): (m: ParashaMetadata)
    ensures m.id == p.id && m.availableChapters == p.chapters && m.dataVersion == "3.0.0"
  {
    ParashaMetadata(p.id, p.chapters, |p.chapters|, Sum(p.verses), DataVersion)
  }

  /** The number of verse files planned for chapter index i: `verses[i]`,
      and none when the list is shorter (`verse <= undefined` is false). */
  function VerseCount(p: ParashaPlan, i: nat): (n: nat)
    ensures i < |p.verses| ==> n == p.verses[i]
    ensures i >= |p.verses| ==> n == 0
  {
    if i < |p.verses| then p.verses[i] else 0
  }

  /** The verse files planned for the first k chapters. */
  function PlannedCount(p: ParashaPlan, k: nat): nat
    requires k <= |p.chapters|
  {
    if k == 0 then 0 else PlannedCount(p, k - 1) + VerseCount(p, k - 1)
  }

  /** The metadata's `totalVerses` is the number of verse files the
      parasha's loops enumerate, when every chapter has its count. */
  lemma {:induction false} TotalVersesIsPlannedCount(p: ParashaPlan, k: nat)
    requires |p.verses| == |p.chapters| && k <= |p.chapters|
    ensures PlannedCount(p, k) == Sum(p.verses[..k])
  {
    if k > 0 {
      TotalVersesIsPlannedCount(p, k - 1);
      assert p.verses[..k] == p.verses[..k - 1] + [p.verses[k - 1]];
      SumAppend(p.verses[..k - 1], [p.verses[k - 1]]);
    }
  }

  /** The metadata records the parasha's chapters and its verse total. */
  lemma MetadataCounts(p: ParashaPlan)
    requires |p.verses| == |p.chapters|
    ensures MetadataOf(p).totalChapters == |p.chapters|
    ensures MetadataOf(p).totalVerses == PlannedCount(p, |p.chapters|) >= 0
  {
    TotalVersesIsPlannedCount(p, |p.chapters|);
    assert p.verses[..|p.chapters|] == p.verses;
  }

  /** `DATA_DIR`. */
  const DataDir := "public/data"

  function ParashaDir(bookId: string, parashaId: string): string {
    DataDir + "/" + bookId + "/" + parashaId
  }

  function MetadataPath(bookId: string, parashaId: string): string {
    ParashaDir(bookId, parashaId) + "/metadata.json"
  }

  /** `${parashaId}-${pad3(chapter)}-${pad3(verse)}.json` in the parasha's
      directory. */
  function VersePath(bookId: string, parashaId: string, chapter: nat, verse: nat): string {
    ParashaDir(bookId, parashaId) + "/" + parashaId + "-" + Pad3(chapter) + "-" + Pad3(verse) + ".json"
  }

  /** Different chapter or verse numbers give different file names. */
  lemma VersePathInjective(bookId: string, parashaId: string, c1: nat, v1: nat, c2: nat, v2: nat)
    requires VersePath(bookId, parashaId, c1, v1) == VersePath(bookId, parashaId, c2, v2)
    ensures c1 == c2 && v1 == v2
  {
    var pre := ParashaDir(bookId, parashaId) + "/" + parashaId + "-";
    var t1 := Pad3(c1) + ['-'] + (Pad3(v1) + ".json");
    var t2 := Pad3(c2) + ['-'] + (Pad3(v2) + ".json");
    assert VersePath(bookId, parashaId, c1, v1) == pre + t1;
    assert VersePath(bookId, parashaId, c2, v2) == pre + t2;
    assert t1 == (pre + t1)[|pre|..] == (pre + t2)[|pre|..] == t2;
    ParsePad3(c1);
    ParsePad3(c2);
    DigitsHaveNo(Pad3(c1), '-');
    DigitsHaveNo(Pad3(c2), '-');
    SplitAtSeparator(Pad3(c1), Pad3(v1) + ".json", Pad3(c2), Pad3(v2) + ".json", '-');
    Pad3Injective(c1, c2);
    var e1 := Pad3(v1) + ".json";
    var e2 := Pad3(v2) + ".json";
    assert Pad3(v1) == e1[..|e1| - 5];
    assert Pad3(v2) == e2[..|e2| - 5];
    Pad3Injective(v1, v2);
  }

  /** The metadata file is never one of the verse files. */
  lemma MetadataIsNotAVerse(bookId: string, parashaId: string, chapter: nat, verse: nat)
    ensures MetadataPath(bookId, parashaId) != VersePath(bookId, parashaId, chapter, verse)
  {
    var pre := ParashaDir(bookId, parashaId) + "/";
    var m := "metadata.json";
    var t := parashaId + "-" + Pad3(chapter) + "-" + Pad3(verse) + ".json";
    assert MetadataPath(bookId, parashaId) == pre + m;
    assert VersePath(bookId, parashaId, chapter, verse) == pre + t;
    assert |t| >= |parashaId| + 13;
    if |parashaId| == 0 {
      assert (pre + t)[|pre|] == '-' != 'm' == (pre + m)[|pre|];
    } else {
      assert |pre + t| != |pre + m|;
    }
  }

  /** Parashas with different ids have different metadata files. */
  lemma MetadataPathInjective(bookId: string, p1: string, p2: string)
    requires MetadataPath(bookId, p1) == MetadataPath(bookId, p2)
    ensures p1 == p2
  {
    var suffix := "/metadata.json";
    var pre := DataDir + "/" + bookId + "/";
    assert MetadataPath(bookId, p1) == pre + p1 + suffix;
    assert MetadataPath(bookId, p2) == pre + p2 + suffix;
    assert p1 == (pre + p1 + suffix)[|pre|..|pre| + |p1|];
    assert p2 == (pre + p2 + suffix)[|pre|..|pre| + |p2|];
  }

  // ---------------------------------------------------------------------
  // File creation (lines 171-234) as folds over the loops
  // ---------------------------------------------------------------------

  /** What a file under the data directory holds: parasha metadata, the
      serialised `VerseStubOf(book, parasha, chapter, verse)`, or anything
      else. */
  datatype FileContent =
    | Other
    | Metadata(metadata: ParashaMetadata)
    | StubFile(book: string, parasha: string, chapter: nat, verse: nat)

  /** The files on disk and the `totalFiles` counter. */
  datatype Progress = Progress(files: map<string, FileContent>, created: nat)

  /** A file the script creates only when it is absent. */
  type Entry = (string, FileContent)

  /** Lines 221-227: write the file and count it, only when it is absent. */
  function CreateIfAbsent(s: Progress, e: Entry): (r: Progress)
    ensures e.0 in s.files ==> r == s
    ensures e.0 !in s.files ==> r == Progress(s.files[e.0 := e.1], s.created + 1)
  {
    if e.0 in s.files then s else Progress(s.files[e.0 := e.1], s.created + 1)
  }

  /** The paths of the entries. */
  function Paths(es: seq<Entry>): (ps: set<string>)
    ensures forall i :: 0 <= i < |es| ==> es[i].0 in ps
  {
    if es == [] then {} else Paths(es[..|es| - 1]) + {es[|es| - 1].0}
  }

  /** A path of the last entry is among the earlier ones only if it repeats. */
  lemma {:induction false} LastPathIsNew(es: seq<Entry>)
    requires es != [] && DistinctPaths(es)
    ensures es[|es| - 1].0 !in Paths(es[..|es| - 1])
  {
    NotInPaths(es[..|es| - 1], es[|es| - 1].0);
  }

  lemma {:induction false} NotInPaths(es: seq<Entry>, path: string)
    requires forall i :: 0 <= i < |es| ==> es[i].0 != path
    ensures path !in Paths(es)
  {
    if es != [] {
      NotInPaths(es[..|es| - 1], path);
    }
  }

  predicate DistinctPaths(es: seq<Entry>) {
    forall i, j :: 0 <= i < j < |es| ==> es[i].0 != es[j].0
  }

  /** Create-if-absent for each entry in order. Files already there are
      kept as they are, every entry's file exists afterwards, and the counter
      grows by the number of files added. */
  function CreatedAll(s: Progress, es: seq<Entry>): (r: Progress)
    ensures r.files.Keys == s.files.Keys + Paths(es)
    ensures forall k :: k in s.files ==> r.files[k] == s.files[k]
    ensures r.created == s.created + |r.files| - |s.files| >= s.created
  {
    if es == [] then s
    else
      CreateIfAbsent(CreatedAll(s, es[..|es| - 1]), es[|es| - 1])
  }

  lemma {:induction false} CreatedAllAppend(s: Progress, a: seq<Entry>, b: seq<Entry>)
    ensures CreatedAll(s, a + b) == CreatedAll(CreatedAll(s, a), b)
  {
    if b != [] {
      assert (a + b)[..|a + b| - 1] == a + b[..|b| - 1];
      CreatedAllAppend(s, a, b[..|b| - 1]);
    } else {
      assert a + b == a;
    }
  }

  /** Without clashing paths, each file absent before holds its own entry. */
  lemma {:induction false} CreatedAllContents(s: Progress, es: seq<Entry>, i: nat)
    requires DistinctPaths(es) && i < |es| && es[i].0 !in s.files
    ensures CreatedAll(s, es).files[es[i].0] == es[i].1
  {
    var init := es[..|es| - 1];
    if i < |es| - 1 {
      CreatedAllContents(s, init, i);
    } else {
      LastPathIsNew(es);
    }
  }

  /** On a tree holding none of the paths, every entry is created and
      counted. */
  lemma {:induction false} FreshAllCounted(s: Progress, es: seq<Entry>)
    requires DistinctPaths(es)
    requires forall i :: 0 <= i < |es| ==> es[i].0 !in s.files
    ensures CreatedAll(s, es).created == s.created + |es|
  {
    if es != [] {
      var init := es[..|es| - 1];
      FreshAllCounted(s, init);
      LastPathIsNew(es);
    }
  }

  /** On a tree holding every path, nothing changes. */
  lemma {:induction false} ExistingUntouched(s: Progress, es: seq<Entry>)
    requires forall i :: 0 <= i < |es| ==> es[i].0 in s.files
    ensures CreatedAll(s, es) == s
  {
    if es != [] {
      ExistingUntouched(s, es[..|es| - 1]);
    }
  }

  function VerseEntry(bookId: string, parashaId: string, chapter: nat, verse: nat): Entry {
    (VersePath(bookId, parashaId, chapter, verse), StubFile(bookId, parashaId, chapter, verse))
  }

  /** The files of the verse loop of lines 217-228: verses 1..n. */
  function VerseEntries(bookId: string, parashaId: string, chapter: nat, n: nat): (es: seq<Entry>)
    ensures |es| == n
    ensures forall i :: 0 <= i < n ==> es[i] == VerseEntry(bookId, parashaId, chapter, i + 1)
  {
    seq(n, i requires 0 <= i < n => VerseEntry(bookId, parashaId, chapter, i + 1))
  }

  /** The files of the chapter loop of lines 214-229, first k chapters. */
  function ChapterEntries(bookId: string, p: ParashaPlan, k: nat): (es: seq<Entry>)
    requires k <= |p.chapters|
    ensures |es| == PlannedCount(p, k)
  {
    if k == 0 then []
    else ChapterEntries(bookId, p, k - 1) + VerseEntries(bookId, p.id, p.chapters[k - 1], VerseCount(p, k - 1))
  }

  /** Each of those files is the stub of a verse of one of the chapters, at
      that verse's path. */
  lemma {:induction false} ChapterEntryShape(bookId: string, p: ParashaPlan, k: nat, i: nat)
    requires k <= |p.chapters| && i < |ChapterEntries(bookId, p, k)|
    ensures ChapterEntries(bookId, p, k)[i].1.StubFile?
    ensures ChapterEntries(bookId, p, k)[i].1.chapter in p.chapters[..k]
    ensures ChapterEntries(bookId, p, k)[i].0 == VersePath(bookId, p.id,
      ChapterEntries(bookId, p, k)[i].1.chapter, ChapterEntries(bookId, p, k)[i].1.verse)
  {
    var a := ChapterEntries(bookId, p, k - 1);
    var b := VerseEntries(bookId, p.id, p.chapters[k - 1], VerseCount(p, k - 1));
    var es := ChapterEntries(bookId, p, k);
    assert es == a + b;
    if i < |a| {
      ChapterEntryShape(bookId, p, k - 1, i);
      assert es[i] == a[i];
      var c :| 0 <= c < k - 1 && p.chapters[..k - 1][c] == a[i].1.chapter;
      assert p.chapters[..k][c] == a[i].1.chapter;
    } else {
      assert es[i] == b[i - |a|];
      assert p.chapters[..k][k - 1] == p.chapters[k - 1];
    }
  }

  /** The chapter loop as a fold: the verse loop of each chapter in turn. */
  function ChaptersCreated(s: Progress, bookId: string, p: ParashaPlan, k: nat): (r: Progress)
    requires k <= |p.chapters|
    ensures r == CreatedAll(s, ChapterEntries(bookId, p, k))
  {
    if k == 0 then s
    else
      var es := VerseEntries(bookId, p.id, p.chapters[k - 1], VerseCount(p, k - 1));
      CreatedAllAppend(s, ChapterEntries(bookId, p, k - 1), es);
      CreatedAll(ChaptersCreated(s, bookId, p, k - 1), es)
  }

  /** The entries of every chapter of the parasha. */
  function ParashaEntries(bookId: string, p: ParashaPlan): seq<Entry> {
    ChapterEntries(bookId, p, |p.chapters|)
  }

  /** For chapter index i, verses 1..verses[i] are all among the files. */
  lemma {:induction false} PlannedVersesListed(bookId: string, p: ParashaPlan, k: nat, i: nat, v: nat)
    requires k <= |p.chapters| && i < k && 1 <= v <= VerseCount(p, i)
    ensures VerseEntry(bookId, p.id, p.chapters[i], v) in ChapterEntries(bookId, p, k)
  {
    var block := VerseEntries(bookId, p.id, p.chapters[k - 1], VerseCount(p, k - 1));
    if i < k - 1 {
      PlannedVersesListed(bookId, p, k - 1, i, v);
    } else {
      assert block[v - 1] == VerseEntry(bookId, p.id, p.chapters[i], v);
    }
  }

  /** The files of one chapter have distinct names. */
  lemma VerseEntriesDistinct(bookId: string, parashaId: string, chapter: nat, n: nat)
    ensures DistinctPaths(VerseEntries(bookId, parashaId, chapter, n))
  {
    var es := VerseEntries(bookId, parashaId, chapter, n);
    forall i, j | 0 <= i < j < n
      ensures es[i].0 != es[j].0
    {
      if es[i].0 == es[j].0 {
        VersePathInjective(bookId, parashaId, chapter, i + 1, chapter, j + 1);
      }
    }
  }

  /** With distinct chapter numbers, no two files of a parasha share a name. */
  lemma {:induction false} ChapterEntriesDistinct(bookId: string, p: ParashaPlan, k: nat)
    requires k <= |p.chapters|
    requires forall i, j :: 0 <= i < j < |p.chapters| ==> p.chapters[i] != p.chapters[j]
    ensures DistinctPaths(ChapterEntries(bookId, p, k))
  {
    if k > 0 {
      ChapterEntriesDistinct(bookId, p, k - 1);
      var a := ChapterEntries(bookId, p, k - 1);
      var b := VerseEntries(bookId, p.id, p.chapters[k - 1], VerseCount(p, k - 1));
      VerseEntriesDistinct(bookId, p.id, p.chapters[k - 1], VerseCount(p, k - 1));
      forall i, j | 0 <= i < |a| && 0 <= j < |b|
        ensures a[i].0 != b[j].0
      {
        ChapterEntryShape(bookId, p, k - 1, i);
        if a[i].0 == b[j].0 {
          VersePathInjective(bookId, p.id, a[i].1.chapter, a[i].1.verse, p.chapters[k - 1], j + 1);
        }
      }
      DistinctAppend(a, b);
    }
  }

  /** Two lists of distinct paths with no path in common join into one. */
  lemma DistinctAppend(a: seq<Entry>, b: seq<Entry>)
    requires DistinctPaths(a) && DistinctPaths(b)
    requires forall i, j :: 0 <= i < |a| && 0 <= j < |b| ==> a[i].0 != b[j].0
    ensures DistinctPaths(a + b)
  {
    var es := a + b;
    forall i, j | 0 <= i < j < |es|
      ensures es[i].0 != es[j].0
    {
      if j < |a| {
        assert es[i] == a[i] && es[j] == a[j];
      } else if i >= |a| {
        assert es[i] == b[i - |a|] && es[j] == b[j - |a|];
      } else {
        assert es[i] == a[i] && es[j] == b[j - |a|];
      }
    }
  }

  /** Lines 192-208: the metadata file is written every time, replacing
      what was there; it is not counted. */
  function MetadataWritten(s: Progress, bookId: string, p: ParashaPlan): (r: Progress)
    ensures r.created == s.created
    ensures r.files.Keys == s.files.Keys + {MetadataPath(bookId, p.id)}
    ensures MetadataPath(bookId, p.id) in r.files && r.files[MetadataPath(bookId, p.id)] == Metadata(MetadataOf(p))
  {
    Progress(s.files[MetadataPath(bookId, p.id) := Metadata(MetadataOf(p))], s.created)
  }

  /** One iteration of the parasha loop: metadata, then every chapter's
      verse files. Only the metadata file is replaced. */
  function ParashaCreated(s: Progress, bookId: string, p: ParashaPlan): (r: Progress)
    ensures MetadataPath(bookId, p.id) in r.files
    ensures r.files[MetadataPath(bookId, p.id)] == Metadata(MetadataOf(p))
    ensures r.files.Keys == s.files.Keys + {MetadataPath(bookId, p.id)} + Paths(ParashaEntries(bookId, p))
    ensures forall key :: key in s.files && key != MetadataPath(bookId, p.id) ==> r.files[key] == s.files[key]
    ensures r.created >= s.created
  {
    ChaptersCreated(MetadataWritten(s, bookId, p), bookId, p, |p.chapters|)
  }

  /** A parasha is complete in a tree when its metadata is current and every
      planned verse file exists. */
  ghost predicate ParashaComplete(files: map<string, FileContent>, bookId: string, p: ParashaPlan) {
    && MetadataPath(bookId, p.id) in files
    && files[MetadataPath(bookId, p.id)] == Metadata(MetadataOf(p))
    && Paths(ParashaEntries(bookId, p)) <= files.Keys
  }

  lemma ParashaCompletes(s: Progress, bookId: string, p: ParashaPlan)
    ensures ParashaComplete(ParashaCreated(s, bookId, p).files, bookId, p)
  {
  }

  /** Every file the loops of lines 214-229 name exists afterwards. */
  lemma PlannedVerseExists(s: Progress, bookId: string, p: ParashaPlan, i: nat, v: nat)
    requires i < |p.chapters| && 1 <= v <= VerseCount(p, i)
    ensures VersePath(bookId, p.id, p.chapters[i], v) in ParashaCreated(s, bookId, p).files
  {
    PlannedVersesListed(bookId, p, |p.chapters|, i, v);
    var es := ParashaEntries(bookId, p);
    var j :| 0 <= j < |es| && es[j] == VerseEntry(bookId, p.id, p.chapters[i], v);
    assert es[j].0 in Paths(es);
  }

  /** A verse file absent before the run holds the stub of its verse. */
  lemma NewVerseIsItsStub(s: Progress, bookId: string, p: ParashaPlan, i: nat, v: nat)
    requires i < |p.chapters| && 1 <= v <= VerseCount(p, i)
    requires ParashaWellFormed(p)
    requires VersePath(bookId, p.id, p.chapters[i], v) !in s.files
    ensures VersePath(bookId, p.id, p.chapters[i], v) in ParashaCreated(s, bookId, p).files
    ensures ParashaCreated(s, bookId, p).files[VersePath(bookId, p.id, p.chapters[i], v)]
      == StubFile(bookId, p.id, p.chapters[i], v)
  {
    PlannedVerseExists(s, bookId, p, i, v);
    var path := VersePath(bookId, p.id, p.chapters[i], v);
    var e := VerseEntry(bookId, p.id, p.chapters[i], v);
    var es := ParashaEntries(bookId, p);
    PlannedVersesListed(bookId, p, |p.chapters|, i, v);
    var j :| 0 <= j < |es| && es[j] == e;
    WellFormedChaptersDistinct(p);
    ChapterEntriesDistinct(bookId, p, |p.chapters|);
    MetadataIsNotAVerse(bookId, p.id, p.chapters[i], v);
    var m := MetadataWritten(s, bookId, p);
    assert e.0 == path && path !in m.files;
    CreatedAllContents(m, es, j);
  }

  /** Running a parasha again over a complete tree rewrites the same
      metadata and creates nothing. */
  lemma RerunParashaChangesNothing(s: Progress, bookId: string, p: ParashaPlan)
    requires ParashaComplete(s.files, bookId, p)
    ensures ParashaCreated(s, bookId, p) == s
  {
    var m := MetadataWritten(s, bookId, p);
    assert m == s;
    var es := ParashaEntries(bookId, p);
    assert forall i :: 0 <= i < |es| ==> es[i].0 in Paths(es);
    ExistingUntouched(m, es);
  }

  /** A parasha's files on a directory holding none of its verse files:
      the count it adds is the metadata's `totalVerses`. */
  lemma FreshParashaCount(s: Progress, bookId: string, p: ParashaPlan)
    requires ParashaWellFormed(p)
    requires forall i, v :: 0 <= i < |p.chapters| && 1 <= v <= VerseCount(p, i) ==>
      VersePath(bookId, p.id, p.chapters[i], v) !in s.files
    ensures ParashaCreated(s, bookId, p).created == s.created + MetadataOf(p).totalVerses
  {
    var m := MetadataWritten(s, bookId, p);
    var es := ParashaEntries(bookId, p);
    forall i | 0 <= i < |es|
      ensures es[i].0 !in m.files
    {
      OnlyPlannedVerses(bookId, p, i);
      var c, v :| 0 <= c < |p.chapters| && 1 <= v <= VerseCount(p, c) &&
        es[i].0 == VersePath(bookId, p.id, p.chapters[c], v);
      MetadataIsNotAVerse(bookId, p.id, p.chapters[c], v);
    }
    WellFormedChaptersDistinct(p);
    ChapterEntriesDistinct(bookId, p, |p.chapters|);
    FreshAllCounted(m, es);
    MetadataCounts(p);
  }

  /** Each listed file is one of the verses the loops enumerate. */
  lemma OnlyPlannedVerses(bookId: string, p: ParashaPlan, i: nat)
    requires i < |ParashaEntries(bookId, p)|
    ensures exists c, v :: (0 <= c < |p.chapters| && 1 <= v <= VerseCount(p, c) &&
      ParashaEntries(bookId, p)[i].0 == VersePath(bookId, p.id, p.chapters[c], v))
  {
    OnlyPlannedVersesIn(bookId, p, |p.chapters|, i);
  }

  lemma {:induction false} OnlyPlannedVersesIn(bookId: string, p: ParashaPlan, k: nat, i: nat)
    requires k <= |p.chapters| && i < |ChapterEntries(bookId, p, k)|
    ensures exists c, v :: (0 <= c < k && 1 <= v <= VerseCount(p, c) &&
      ChapterEntries(bookId, p, k)[i].0 == VersePath(bookId, p.id, p.chapters[c], v))
  {
    var a := ChapterEntries(bookId, p, k - 1);
    if i < |a| {
      OnlyPlannedVersesIn(bookId, p, k - 1, i);
    } else {
      var v := i - |a| + 1;
      assert ChapterEntries(bookId, p, k)[i] == VerseEntry(bookId, p.id, p.chapters[k - 1], v);
    }
  }

  /** The parasha loop of lines 190-232, as a left fold. */
  function ParashasCreated(s: Progress, bookId: string, ps: seq<ParashaPlan>): (r: Progress)
    ensures r.files.Keys >= s.files.Keys
    ensures r.created >= s.created
  {
    if ps == [] then s else ParashaCreated(ParashasCreated(s, bookId, ps[..|ps| - 1]), bookId, ps[|ps| - 1])
  }

  /** Ids distinct within a book, as in the plan. */
  predicate DistinctIds(ps: seq<ParashaPlan>) {
    forall i, j :: 0 <= i < j < |ps| ==> ps[i].id != ps[j].id
  }

  /** A later parasha leaves an earlier one complete: it replaces only its
      own metadata file and adds files. */
  lemma CompletePreserved(s: Progress, bookId: string, p: ParashaPlan, q: ParashaPlan)
    requires ParashaComplete(s.files, bookId, q) && p.id != q.id
    ensures ParashaComplete(ParashaCreated(s, bookId, p).files, bookId, q)
  {
    if MetadataPath(bookId, p.id) == MetadataPath(bookId, q.id) {
      MetadataPathInjective(bookId, p.id, q.id);
    }
  }

  /** After the loop, every parasha of the book is complete. */
  lemma {:induction false} ParashasComplete(s: Progress, bookId: string, ps: seq<ParashaPlan>)
    requires DistinctIds(ps)
    ensures forall j :: 0 <= j < |ps| ==> ParashaComplete(ParashasCreated(s, bookId, ps).files, bookId, ps[j])
  {
    if ps != [] {
      var init := ps[..|ps| - 1];
      var last := ps[|ps| - 1];
      ParashasComplete(s, bookId, init);
      var r := ParashasCreated(s, bookId, init);
      ParashaCompletes(r, bookId, last);
      forall j | 0 <= j < |ps| - 1
        ensures ParashaComplete(ParashaCreated(r, bookId, last).files, bookId, ps[j])
      {
        assert init[j] == ps[j];
        CompletePreserved(r, bookId, last, ps[j]);
      }
    }
  }

  lemma {:induction false} RerunParashasChangeNothing(s: Progress, bookId: string, ps: seq<ParashaPlan>)
    requires forall j :: 0 <= j < |ps| ==> ParashaComplete(s.files, bookId, ps[j])
    ensures ParashasCreated(s, bookId, ps) == s
  {
    if ps != [] {
      var init := ps[..|ps| - 1];
      RerunParashasChangeNothing(s, bookId, init);
      RerunParashaChangesNothing(s, bookId, ps[|ps| - 1]);
    }
  }

  /** `createBookStructure(bookId)`: nothing for a book the plan does not
      know; else every parasha in order, with `totalFiles` from 0. */
  function BookCreated(table: seq<(string, BookPlan)>, files: map<string, FileContent>, bookId: string): (r: Progress)
    ensures PlanOf(table, bookId).None? ==> r == Progress(files, 0)
    ensures r.files.Keys >= files.Keys
  {
    match PlanOf(table, bookId)
    case None => Progress(files, 0)
    case Some(plan) => ParashasCreated(Progress(files, 0), bookId, plan.parashas)
  }

  /** `createBookStructure` run for each listed book in turn, each run
      starting from the files the previous one left; no file is removed. */
  function BooksCreated(table: seq<(string, BookPlan)>, files: map<string, FileContent>,
                        books: seq<(string, BookPlan)>): (r: map<string, FileContent>)
    ensures r.Keys >= files.Keys
    ensures books == [] ==> r == files
  {
    if books == [] then files
    else BookCreated(table, BooksCreated(table, files, books[..|books| - 1]), books[|books| - 1].0).files
  }

  lemma BooksCreatedStep(table: seq<(string, BookPlan)>, files: map<string, FileContent>,
                         books: seq<(string, BookPlan)>, i: nat)
    requires i < |books|
    ensures BooksCreated(table, files, books[..i + 1])
            == BookCreated(table, BooksCreated(table, files, books[..i]), books[i].0).files
    ensures GrandTotal(books[..i + 1]) == GrandTotal(books[..i]) + BookTotal(books[i].1.parashas)
  {
    assert books[..i + 1][..i] == books[..i];
  }

  /** The plan lists each chapter's count, in ascending chapter order. */
  predicate ParashaWellFormed(p: ParashaPlan) {
    && |p.verses| == |p.chapters|
    && forall i :: 0 <= i < |p.chapters| - 1 ==> p.chapters[i] < p.chapters[i + 1]
  }

  /** Ascending chapters are distinct. */
  lemma {:induction false} AscendingChaptersDistinct(p: ParashaPlan, i: nat, j: nat)
    requires ParashaWellFormed(p) && i < j < |p.chapters|
    ensures p.chapters[i] < p.chapters[j]
    decreases j - i
  {
    if i + 1 < j {
      AscendingChaptersDistinct(p, i + 1, j);
    }
  }

  lemma WellFormedChaptersDistinct(p: ParashaPlan)
    requires ParashaWellFormed(p)
    ensures forall i, j :: 0 <= i < j < |p.chapters| ==> p.chapters[i] != p.chapters[j]
  {
    forall i, j | 0 <= i < j < |p.chapters|
      ensures p.chapters[i] != p.chapters[j]
    {
      AscendingChaptersDistinct(p, i, j);
    }
  }

  /** No id of `a` is an id of `b`. */
  predicate IdsApart(a: seq<ParashaPlan>, b: seq<ParashaPlan>) {
    forall i, j :: 0 <= i < |a| && 0 <= j < |b| ==> a[i].id != b[j].id
  }

  /** Two lists of parashas with distinct ids and no id in common join
      into one. */
  lemma DistinctIdsJoin(a: seq<ParashaPlan>, b: seq<ParashaPlan>)
    requires DistinctIds(a) && DistinctIds(b) && IdsApart(a, b)
    ensures DistinctIds(a + b)
  {
    var ps := a + b;
    forall i, j | 0 <= i < j < |ps|
      ensures ps[i].id != ps[j].id
    {
      if j < |a| {
        assert ps[i] == a[i] && ps[j] == a[j];
      } else if i >= |a| {
        assert ps[i] == b[i - |a|] && ps[j] == b[j - |a|];
      } else {
        assert ps[i] == a[i] && ps[j] == b[j - |a|];
      }
    }
  }

  /** Parasha ids are distinct within a book and each parasha is well formed. */
  predicate BookWellFormed(ps: seq<ParashaPlan>) {
    && DistinctIds(ps)
    && forall i :: 0 <= i < |ps| ==> ParashaWellFormed(ps[i])
  }

  predicate PlanWellFormed(table: seq<(string, BookPlan)>) {
    forall i :: 0 <= i < |table| ==> BookWellFormed(table[i].1.parashas)
  }

  lemma GenesisIds() ensures DistinctIds(GenesisPlan.parashas) {
    var ps := GenesisPlan.parashas;
    GenesisIdsHalves();
    DistinctIdsJoin(ps[..|ps| / 2], ps[|ps| / 2..]);
    assert ps[..|ps| / 2] + ps[|ps| / 2..] == ps;
  }
  lemma GenesisIdsHalves()
    ensures var ps := GenesisPlan.parashas;
      && DistinctIds(ps[..|ps| / 2]) && DistinctIds(ps[|ps| / 2..])
      && IdsApart(ps[..|ps| / 2], ps[|ps| / 2..])
  {
    var ps := GenesisPlan.parashas;
    GenesisIdsFront();
    GenesisIdsBack();
  }
  lemma GenesisIdsFront() ensures var ps := GenesisPlan.parashas; DistinctIds(ps[..|ps| / 2]) {}
  lemma GenesisIdsBack() ensures var ps := GenesisPlan.parashas; DistinctIds(ps[|ps| / 2..]) {}
  lemma GenesisChapters() ensures forall i :: 0 <= i < |GenesisPlan.parashas| ==> ParashaWellFormed(GenesisPlan.parashas[i]) {}
  lemma ExodusIds() ensures DistinctIds(ExodusPlan.parashas) {
    var ps := ExodusPlan.parashas;
    ExodusIdsHalves();
    DistinctIdsJoin(ps[..|ps| / 2], ps[|ps| / 2..]);
    assert ps[..|ps| / 2] + ps[|ps| / 2..] == ps;
  }
  lemma ExodusIdsHalves()
    ensures var ps := ExodusPlan.parashas;
      && DistinctIds(ps[..|ps| / 2]) && DistinctIds(ps[|ps| / 2..])
      && IdsApart(ps[..|ps| / 2], ps[|ps| / 2..])
  {
    var ps := ExodusPlan.parashas;
    ExodusIdsFront();
    ExodusIdsBack();
  }
  lemma ExodusIdsFront() ensures var ps := ExodusPlan.parashas; DistinctIds(ps[..|ps| / 2]) {}
  lemma ExodusIdsBack() ensures var ps := ExodusPlan.parashas; DistinctIds(ps[|ps| / 2..]) {}
  lemma ExodusChapters() ensures forall i :: 0 <= i < |ExodusPlan.parashas| ==> ParashaWellFormed(ExodusPlan.parashas[i]) {}
  lemma LeviticusIds() ensures DistinctIds(LeviticusPlan.parashas) {
    var ps := LeviticusPlan.parashas;
    LeviticusIdsHalves();
    DistinctIdsJoin(ps[..|ps| / 2], ps[|ps| / 2..]);
    assert ps[..|ps| / 2] + ps[|ps| / 2..] == ps;
  }
  lemma LeviticusIdsHalves()
    ensures var ps := LeviticusPlan.parashas;
      && DistinctIds(ps[..|ps| / 2]) && DistinctIds(ps[|ps| / 2..])
      && IdsApart(ps[..|ps| / 2], ps[|ps| / 2..])
  {
    var ps := LeviticusPlan.parashas;
    LeviticusIdsFront();
    LeviticusIdsBack();
  }
  lemma LeviticusIdsFront() ensures var ps := LeviticusPlan.parashas; DistinctIds(ps[..|ps| / 2]) {}
  lemma LeviticusIdsBack() ensures var ps := LeviticusPlan.parashas; DistinctIds(ps[|ps| / 2..]) {}
  lemma LeviticusChapters() ensures forall i :: 0 <= i < |LeviticusPlan.parashas| ==> ParashaWellFormed(LeviticusPlan.parashas[i]) {}
  lemma NumbersIds() ensures DistinctIds(NumbersPlan.parashas) {
    var ps := NumbersPlan.parashas;
    NumbersIdsHalves();
    DistinctIdsJoin(ps[..|ps| / 2], ps[|ps| / 2..]);
    assert ps[..|ps| / 2] + ps[|ps| / 2..] == ps;
  }
  lemma NumbersIdsHalves()
    ensures var ps := NumbersPlan.parashas;
      && DistinctIds(ps[..|ps| / 2]) && DistinctIds(ps[|ps| / 2..])
      && IdsApart(ps[..|ps| / 2], ps[|ps| / 2..])
  {
    var ps := NumbersPlan.parashas;
    NumbersIdsFront();
    NumbersIdsBack();
  }
  lemma NumbersIdsFront() ensures var ps := NumbersPlan.parashas; DistinctIds(ps[..|ps| / 2]) {}
  lemma NumbersIdsBack() ensures var ps := NumbersPlan.parashas; DistinctIds(ps[|ps| / 2..]) {}
  lemma NumbersChapters() ensures forall i :: 0 <= i < |NumbersPlan.parashas| ==> ParashaWellFormed(NumbersPlan.parashas[i]) {}
  lemma DeuteronomyIds() ensures DistinctIds(DeuteronomyPlan.parashas) {
    var ps := DeuteronomyPlan.parashas;
    DeuteronomyIdsHalves();
    DistinctIdsJoin(ps[..|ps| / 2], ps[|ps| / 2..]);
    assert ps[..|ps| / 2] + ps[|ps| / 2..] == ps;
  }
  lemma DeuteronomyIdsHalves()
    ensures var ps := DeuteronomyPlan.parashas;
      && DistinctIds(ps[..|ps| / 2]) && DistinctIds(ps[|ps| / 2..])
      && IdsApart(ps[..|ps| / 2], ps[|ps| / 2..])
  {
    var ps := DeuteronomyPlan.parashas;
    DeuteronomyIdsFront();
    DeuteronomyIdsBack();
  }
  lemma DeuteronomyIdsFront() ensures var ps := DeuteronomyPlan.parashas; DistinctIds(ps[..|ps| / 2]) {}
  lemma DeuteronomyIdsBack() ensures var ps := DeuteronomyPlan.parashas; DistinctIds(ps[|ps| / 2..]) {}
  lemma DeuteronomyChapters() ensures forall i :: 0 <= i < |DeuteronomyPlan.parashas| ==> ParashaWellFormed(DeuteronomyPlan.parashas[i]) {}

  /** The plan of lines 16-101 is well formed. */
  lemma TorahStructureWellFormed()
    ensures |TorahStructure| == 5
    ensures PlanWellFormed(TorahStructure)
  {
    GenesisIds();
    GenesisChapters();
    ExodusIds();
    ExodusChapters();
    LeviticusIds();
    LeviticusChapters();
    NumbersIds();
    NumbersChapters();
    DeuteronomyIds();
    DeuteronomyChapters();
  }

  /** Running the script for a book twice: the second run finds every file
      in place, writes back the same metadata, changes nothing and reports
      0 new files. */
  lemma SecondRunCreatesNothing(table: seq<(string, BookPlan)>, files: map<string, FileContent>, bookId: string)
    requires PlanWellFormed(table)
    ensures BookCreated(table, BookCreated(table, files, bookId).files, bookId)
      == Progress(BookCreated(table, files, bookId).files, 0)
  {
    var first := BookCreated(table, files, bookId);
    match PlanOf(table, bookId)
    case None =>
    case Some(plan) =>
      ParashasComplete(Progress(files, 0), bookId, plan.parashas);
      RerunParashasChangeNothing(Progress(first.files, 0), bookId, plan.parashas);
  }

  // ---------------------------------------------------------------------
  // The grand total (lines 240-253)
  // ---------------------------------------------------------------------

  /** The verses planned for a book: the sum over its parashas of their
      verse counts. */
  function BookTotal(ps: seq<ParashaPlan>): (t: int)
    ensures (forall i :: 0 <= i < |ps| ==> Sum(ps[i].verses) >= 0) ==> t >= 0
  {
    if ps == [] then 0 else BookTotal(ps[..|ps| - 1]) + Sum(ps[|ps| - 1].verses)
  }

  /** The verses planned for every book. */
  function GrandTotal(table: seq<(string, BookPlan)>): int {
    if table == [] then 0 else GrandTotal(table[..|table| - 1]) + BookTotal(table[|table| - 1].1.parashas)
  }

  // ---------------------------------------------------------------------
  // The script's loops over the file tree
  // ---------------------------------------------------------------------

  class StructureBuilder {
    /** `TORAH_STRUCTURE`. */
    const plan: seq<(string, BookPlan)>
    var files: map<string, FileContent>

    constructor (files: map<string, FileContent>)
      ensures plan == TorahStructure && this.files == files
    {
      plan := TorahStructure;
      this.files := files;
    }

    /** The verse loop of one chapter. */
    method CreateVerses(bookId: string, parashaId: string, chapter: nat, count: nat, created: nat) returns (total: nat)
      modifies this
      ensures Progress(files, total) == CreatedAll(Progress(old(files), created), VerseEntries(bookId, parashaId, chapter, count))
    {
      ghost var s0 := Progress(files, created);
      total := created;
      var verse := 1;
      while verse <= count
        invariant 1 <= verse <= count + 1
        invariant Progress(files, total) == CreatedAll(s0, VerseEntries(bookId, parashaId, chapter, verse - 1))
      {
        ghost var es := VerseEntries(bookId, parashaId, chapter, verse);
        assert es[..verse - 1] == VerseEntries(bookId, parashaId, chapter, verse - 1);
        var path := VersePath(bookId, parashaId, chapter, verse);
        if path !in files {
          files := files[path := StubFile(bookId, parashaId, chapter, verse)];
          total := total + 1;
        }
        verse := verse + 1;
      }
    }

    /** The chapter loop of one parasha. */
    method CreateChapters(bookId: string, p: ParashaPlan, created: nat) returns (total: nat)
      modifies this
      ensures Progress(files, total) == ChaptersCreated(Progress(old(files), created), bookId, p, |p.chapters|)
    {
      ghost var s0 := Progress(files, created);
      total := created;
      for i := 0 to |p.chapters|
        invariant Progress(files, total) == ChaptersCreated(s0, bookId, p, i)
      {
        var verseCount := if i < |p.verses| then p.verses[i] else 0;
        total := CreateVerses(bookId, p.id, p.chapters[i], verseCount, total);
      }
    }

    /** One iteration of the parasha loop: the metadata, then the chapters. */
    method CreateParasha(bookId: string, p: ParashaPlan, created: nat) returns (total: nat)
      modifies this
      ensures Progress(files, total) == ParashaCreated(Progress(old(files), created), bookId, p)
    {
      files := files[MetadataPath(bookId, p.id) := Metadata(MetadataOf(p))];
      total := CreateChapters(bookId, p, created);
    }

    /** `createBookStructure`, returning the `totalFiles` it reports. */
    method CreateBookStructure(bookId: string) returns (totalFiles: nat)
      modifies this
      ensures Progress(files, totalFiles) == BookCreated(plan, old(files), bookId)
    {
      var bookData := PlanOf(plan, bookId);
      if bookData.None? {
        return 0;
      }
      totalFiles := CreateParashas(bookId, bookData.value.parashas);
    }

    /** The parasha loop of lines 190-232, with `totalFiles` from 0. */
    method CreateParashas(bookId: string, ps: seq<ParashaPlan>) returns (totalFiles: nat)
      modifies this
      ensures Progress(files, totalFiles) == ParashasCreated(Progress(old(files), 0), bookId, ps)
    {
      ghost var s0 := Progress(files, 0);
      totalFiles := 0;
      for i := 0 to |ps|
        invariant Progress(files, totalFiles) == ParashasCreated(s0, bookId, ps[..i])
      {
        assert ps[..i + 1][..i] == ps[..i];
        totalFiles := CreateParasha(bookId, ps[i], totalFiles);
      }
      assert ps[..|ps|] == ps;
    }

    /** Lines 250-252: the book's planned verses, parasha by parasha. */
    static method VerseTotal(ps: seq<ParashaPlan>) returns (bookTotal: int)
      ensures bookTotal == BookTotal(ps)
    {
      bookTotal := 0;
      var j := 0;
      while j < |ps|
        invariant 0 <= j <= |ps|
        invariant bookTotal == BookTotal(ps[..j])
      {
        assert ps[..j + 1][..j] == ps[..j];
        bookTotal := bookTotal + Sum(ps[j].verses);
        j := j + 1;
      }
      assert ps[..|ps|] == ps;
    }

    /** `main`: every book in order, summing the planned verses. */
    method CreateAllBooks() returns (grandTotal: int)
      modifies this
      ensures grandTotal == GrandTotal(plan)
      ensures files == BooksCreated(plan, old(files), plan)
    {
      var table := plan;
      grandTotal := 0;
      var i := 0;
      while i < |table|
        invariant 0 <= i <= |table|
        invariant grandTotal == GrandTotal(table[..i])
        invariant files == BooksCreated(plan, old(files), table[..i])
      {
        BooksCreatedStep(plan, old(files), table, i);
        var _ := CreateBookStructure(table[i].0);
        var bookTotal := VerseTotal(table[i].1.parashas);
        grandTotal := grandTotal + bookTotal;
        i := i + 1;
      }
      assert table[..|table|] == table;
    }
  }
}
