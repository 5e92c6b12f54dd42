/** `scripts/convertToVerseStructure.js`: every `chapter-NNN.json` of a
    parasha folder is split into one `{parasha}-NNN-NNN.json` file per
    verse, after which the chapter file is copied to
    `backup-chapter-NNN.json`.

    The data directory is two read-only maps and one mutable one: `dirs`
    gives the listing of every directory (by its path under the data
    directory), `files` the content of every file. A ghost log `writes`
    records the order of the writes. */
module Converter {
  import opened Wrappers
  import opened Text
  import opened JsonValues

  /** The `metadata.completeness` tags of a converted verse. */
  datatype Completeness = Completeness(words: string, translations: string, commentaries: string)

  /** The record written for one verse (the `lastUpdated` timestamp is
      left out). */
  datatype ConvertedVerse = ConvertedVerse(
    book: Json, parasha: Json, chapter: Json, verse: Json,
    hebrew: Json, words: Json, commentaries: Json,
    dataVersion: string, completeness: Completeness, convertedFrom: string)

  /** A file: parsed JSON, text that is not JSON, or a verse record this
      script wrote. */
  datatype Stored = Parsed(data: Json) | Unparsable | VerseRecord(record: ConvertedVerse)

  /** The file contents and the ghost log of writes, as one value. */
  datatype Outcome = Outcome(files: map<string, Stored>, writes: seq<string>)

  const DataVersion := "3.0.0"

  // ---------------------------------------------------------------------
  // File names

  /** `chapter-${pad3(n)}.json`. */
  function ChapterFileName(n: nat): string {
    "chapter-" + Pad3(n) + ".json"
  }

  function ChapterPath(bookId: string, parashaId: string, n: nat): string {
    bookId + "/" + parashaId + "/" + ChapterFileName(n)
  }

  function BackupPath(bookId: string, parashaId: string, n: nat): string {
    bookId + "/" + parashaId + "/backup-" + ChapterFileName(n)
  }

  /** `${parasha}-${pad3(chapter)}-${pad3(verse.number)}.json` in the
      parasha folder. */
  function VersePath(bookId: string, parashaId: string, n: nat, verse: Json): string {
    bookId + "/" + parashaId + "/" + parashaId + "-" + Pad3(n) + "-"
      + PadStart3(FieldText(Field(verse, "number"))) + ".json"
  }

  // ---------------------------------------------------------------------
  // One verse

  /** `verse.words.some(w => w.pardes)`: None when it reaches a `null`
      element (reading `.pardes` of null throws). */
  function PardesScan(items: seq<Json>): (r: Option<bool>)
    ensures r.Some? ==> (r.value <==> exists i :: 0 <= i < |items| && Truthy(Field(items[i], "pardes")))
    ensures (forall i :: 0 <= i < |items| ==> items[i] != JNull) ==> r.Some?
  {
    if items == [] then Some(false)
    else if items[0] == JNull then None
    else if Truthy(Field(items[0], "pardes")) then Some(true)
    else
      var rest := PardesScan(items[1..]);
      assert forall i :: 1 <= i < |items| ==> items[i] == items[1..][i - 1];
      rest
  }

  /** The record of lines 42-60 for one verse entry, or None when building
      it throws: the verse has no `number` (or it is null), its `words` is
      truthy but not an array, or the `some` scan meets a null word. */
  function VerseRecordOf(bookId: string, parashaId: string, n: nat, chapterData: Json, verse: Json)
    : (r: Option<ConvertedVerse>)
    ensures r.Some? <==>
      && Field(verse, "number").Some? && Field(verse, "number") != Some(JNull)
      && (!Truthy(Field(verse, "words"))
          || (IsArray(Field(verse, "words")) && PardesScan(Elements(Field(verse, "words"))).Some?))
  {
    var number := Field(verse, "number");
    var words := Field(verse, "words");
    if number.None? || number == Some(JNull) then None
    else if Truthy(words) && !IsArray(words) then None
    else
      var scan := PardesScan(Elements(words));
      if scan.None? then None
      else
        var commentaries := OrElse(Field(verse, "commentaries"), JObj(map[]));
        Some(ConvertedVerse(
          OrElse(Field(chapterData, "book"), JStr(bookId)),
          OrElse(Field(chapterData, "parasha"), JStr(parashaId)),
          OrElse(Field(chapterData, "chapter"), JNum(n)),
          number.value,
          OrElse(Field(verse, "hebrew"), JArr([])),
          OrElse(words, JArr([])),
          commentaries,
          DataVersion,
          Completeness(
            if |Elements(words)| > 0 then "complete" else "partial",
            if scan.value then "pardes" else "basic",
            if KeyCount(commentaries) > 0 then "complete" else "partial"),
          ChapterFileName(n)))
  }

  /** A converted verse takes `book`, `parasha` and `chapter` from the
      chapter file unless they are falsy there, in which case the
      arguments are used; `hebrew`, `words` and `commentaries` default to
      `[]`, `[]` and `{}`. */
  lemma VerseRecordDefaults(bookId: string, parashaId: string, n: nat, chapterData: Json, verse: Json)
    requires VerseRecordOf(bookId, parashaId, n, chapterData, verse).Some?
    ensures var r := VerseRecordOf(bookId, parashaId, n, chapterData, verse).value;
      && r.book == OrElse(Field(chapterData, "book"), JStr(bookId))
      && r.parasha == OrElse(Field(chapterData, "parasha"), JStr(parashaId))
      && r.chapter == OrElse(Field(chapterData, "chapter"), JNum(n))
      && r.verse == Field(verse, "number").value
      && r.hebrew == OrElse(Field(verse, "hebrew"), JArr([]))
      && r.words == OrElse(Field(verse, "words"), JArr([]))
      && r.commentaries == OrElse(Field(verse, "commentaries"), JObj(map[]))
      && r.dataVersion == "3.0.0"
      && r.convertedFrom == ChapterFileName(n)
  {
  }

  /** The completeness tags: words "complete" iff there is at least one
      word, translations "pardes" iff some word has a truthy `pardes`,
      commentaries "complete" iff the commentaries have at least one key;
      "partial", "basic" and "partial" otherwise. */
  lemma VerseRecordCompleteness(bookId: string, parashaId: string, n: nat, chapterData: Json, verse: Json)
    requires VerseRecordOf(bookId, parashaId, n, chapterData, verse).Some?
    ensures var c := VerseRecordOf(bookId, parashaId, n, chapterData, verse).value.completeness;
      var words := Elements(Field(verse, "words"));
      && (c.words == "complete" <==> |words| > 0)
      && (c.words != "complete" ==> c.words == "partial")
      && (c.translations == "pardes" <==> exists i :: 0 <= i < |words| && Truthy(Field(words[i], "pardes")))
      && (c.translations != "pardes" ==> c.translations == "basic")
      && (c.commentaries == "complete" <==> KeyCount(OrElse(Field(verse, "commentaries"), JObj(map[]))) > 0)
      && (c.commentaries != "complete" ==> c.commentaries == "partial")
  {
  }

  // ---------------------------------------------------------------------
  // One chapter

  function Written(o: Outcome, path: string, content: Stored): (u: Outcome)
    ensures u.files == o.files[path := content] && u.writes == o.writes + [path]
  {
    Outcome(o.files[path := content], o.writes + [path])
  }

  /** The verse loop of lines 37-65 over `verses`, and whether it stopped
      on a verse whose record throws (the exception ends the loop). */
  function VersesWritten(o: Outcome, bookId: string, parashaId: string, n: nat, chapterData: Json, verses: seq<Json>)
    : (r: (Outcome, bool))
    ensures o.files.Keys <= r.0.files.Keys && o.writes <= r.0.writes
  {
    if verses == [] then (o, false)
    else
      var (p, aborted) := VersesWritten(o, bookId, parashaId, n, chapterData, verses[..|verses| - 1]);
      var v := verses[|verses| - 1];
      if aborted then (p, true)
      else match VerseRecordOf(bookId, parashaId, n, chapterData, v)
        case None => (p, true)
        case Some(rec) => (Written(p, VersePath(bookId, parashaId, n, v), VerseRecord(rec)), false)
  }

  /** The paths of the verse files, one per verse entry, in order. */
  function VersePaths(bookId: string, parashaId: string, n: nat, verses: seq<Json>): (ps: seq<string>)
    ensures |ps| == |verses|
    ensures forall i :: 0 <= i < |verses| ==> ps[i] == VersePath(bookId, parashaId, n, verses[i])
  {
    seq(|verses|, i requires 0 <= i < |verses| => VersePath(bookId, parashaId, n, verses[i]))
  }

  /** The verses of a chapter file that loads with a `verses` array. */
  predicate HasVerses(files: map<string, Stored>, path: string) {
    path in files && files[path].Parsed? && IsArray(Field(files[path].data, "verses"))
  }

  /** `convertChapterToVerses`: nothing happens unless the chapter file
      exists, parses and holds a `verses` array; then the verse loop runs
      and, when it completes, the chapter file is copied to the backup. */
  function ChapterConverted(o: Outcome, bookId: string, parashaId: string, n: nat): (u: Outcome)
    ensures !HasVerses(o.files, ChapterPath(bookId, parashaId, n)) ==> u == o
    ensures o.files.Keys <= u.files.Keys && o.writes <= u.writes
  {
    var path := ChapterPath(bookId, parashaId, n);
    if !HasVerses(o.files, path) then o
    else
      var chapterData := o.files[path].data;
      var (p, aborted) := VersesWritten(o, bookId, parashaId, n, chapterData, Elements(Field(chapterData, "verses")));
      if aborted then p else Written(p, BackupPath(bookId, parashaId, n), p.files[path])
  }

  /** When every verse's record builds, one file is written per verse entry
      in order, and the loop completes. */
  lemma {:induction false} AllVersesWritten(o: Outcome, bookId: string, parashaId: string, n: nat, chapterData: Json, verses: seq<Json>)
    requires forall i :: 0 <= i < |verses| ==> VerseRecordOf(bookId, parashaId, n, chapterData, verses[i]).Some?
    ensures var r := VersesWritten(o, bookId, parashaId, n, chapterData, verses);
      !r.1 && r.0.writes == o.writes + VersePaths(bookId, parashaId, n, verses)
  {
    if verses != [] {
      var init := verses[..|verses| - 1];
      var last := verses[|verses| - 1];
      AllVersesWritten(o, bookId, parashaId, n, chapterData, init);
      var prev := VersesWritten(o, bookId, parashaId, n, chapterData, init);
      var path := VersePath(bookId, parashaId, n, last);
      assert VerseRecordOf(bookId, parashaId, n, chapterData, last).Some?;
      assert VersesWritten(o, bookId, parashaId, n, chapterData, verses).0.writes == prev.0.writes + [path];
      VersePathsLast(bookId, parashaId, n, verses);
    }
  }

  lemma VersePathsLast(bookId: string, parashaId: string, n: nat, verses: seq<Json>)
    requires verses != []
    ensures VersePaths(bookId, parashaId, n, verses)
      == VersePaths(bookId, parashaId, n, verses[..|verses| - 1]) + [VersePath(bookId, parashaId, n, verses[|verses| - 1])]
  {
    var a := VersePaths(bookId, parashaId, n, verses);
    var b := VersePaths(bookId, parashaId, n, verses[..|verses| - 1]) + [VersePath(bookId, parashaId, n, verses[|verses| - 1])];
    assert |a| == |b|;
    forall i | 0 <= i < |a|
      ensures a[i] == b[i]
    {
      if i < |verses| - 1 {
        assert verses[..|verses| - 1][i] == verses[i];
      }
    }
  }

  /** With every verse file name distinct, each verse's file holds that
      verse's record. */
  lemma {:induction false} EachVerseHasItsFile(o: Outcome, bookId: string, parashaId: string, n: nat, chapterData: Json, verses: seq<Json>)
    requires forall i :: 0 <= i < |verses| ==> VerseRecordOf(bookId, parashaId, n, chapterData, verses[i]).Some?
    requires forall i, j :: 0 <= i < j < |verses| ==>
      VersePath(bookId, parashaId, n, verses[i]) != VersePath(bookId, parashaId, n, verses[j])
    ensures var r := VersesWritten(o, bookId, parashaId, n, chapterData, verses);
      forall i :: 0 <= i < |verses| ==>
        && VersePath(bookId, parashaId, n, verses[i]) in r.0.files
        && r.0.files[VersePath(bookId, parashaId, n, verses[i])]
          == VerseRecord(VerseRecordOf(bookId, parashaId, n, chapterData, verses[i]).value)
  {
    if verses != [] {
      var init := verses[..|verses| - 1];
      var last := verses[|verses| - 1];
      EachVerseHasItsFile(o, bookId, parashaId, n, chapterData, init);
      LastVerseWritten(o, bookId, parashaId, n, chapterData, verses);
      var before := VersesWritten(o, bookId, parashaId, n, chapterData, init).0.files;
      var after := VersesWritten(o, bookId, parashaId, n, chapterData, verses).0.files;
      var ks := VersePaths(bookId, parashaId, n, verses);
      var vs := VerseRecords(bookId, parashaId, n, chapterData, verses);
      forall i | 0 <= i < |ks| - 1
        ensures ks[i] in before && before[ks[i]] == vs[i] && ks[i] != ks[|ks| - 1]
      {
        assert init[i] == verses[i];
      }
      UpdateKeepsEarlier(before, after, ks, vs);
    }
  }

  /** The stored record of each verse of a fully converted list. */
  function VerseRecords(bookId: string, parashaId: string, n: nat, chapterData: Json, verses: seq<Json>)
    : (vs: seq<Stored>)
    requires forall i :: 0 <= i < |verses| ==> VerseRecordOf(bookId, parashaId, n, chapterData, verses[i]).Some?
    ensures |vs| == |verses|
    ensures forall i :: 0 <= i < |verses| ==>
      vs[i] == VerseRecord(VerseRecordOf(bookId, parashaId, n, chapterData, verses[i]).value)
  {
    seq(|verses|, i requires 0 <= i < |verses| => VerseRecord(VerseRecordOf(bookId, parashaId, n, chapterData, verses[i]).value))
  }

  /** Storing the last key over a map that already held every earlier key
      with its value, the earlier keys all differing from the last, leaves
      every key with its value. */
  lemma UpdateKeepsEarlier(before: map<string, Stored>, after: map<string, Stored>, ks: seq<string>, vs: seq<Stored>)
    requires |ks| == |vs| > 0
    requires after == before[ks[|ks| - 1] := vs[|vs| - 1]]
    requires forall i :: 0 <= i < |ks| - 1 ==> ks[i] in before && before[ks[i]] == vs[i] && ks[i] != ks[|ks| - 1]
    ensures forall i :: 0 <= i < |ks| ==> ks[i] in after && after[ks[i]] == vs[i]
  {
  }

  /** A converted last verse adds its file over the earlier ones. */
  lemma LastVerseWritten(o: Outcome, bookId: string, parashaId: string, n: nat, chapterData: Json, verses: seq<Json>)
    requires verses != []
    requires forall i :: 0 <= i < |verses| ==> VerseRecordOf(bookId, parashaId, n, chapterData, verses[i]).Some?
    ensures var last := verses[|verses| - 1];
      VersesWritten(o, bookId, parashaId, n, chapterData, verses).0.files
      == VersesWritten(o, bookId, parashaId, n, chapterData, verses[..|verses| - 1]).0.files
           [VersePath(bookId, parashaId, n, last) := VerseRecord(VerseRecordOf(bookId, parashaId, n, chapterData, last).value)]
  {
    AllVersesWritten(o, bookId, parashaId, n, chapterData, verses[..|verses| - 1]);
  }

  /** One more verse: written when its record builds, an abort otherwise;
      nothing happens after an abort. */
  lemma VersesWrittenStep(o: Outcome, bookId: string, parashaId: string, n: nat, chapterData: Json,
                          verses: seq<Json>, i: nat)
    requires i < |verses|
    ensures var (p, aborted) := VersesWritten(o, bookId, parashaId, n, chapterData, verses[..i]);
      VersesWritten(o, bookId, parashaId, n, chapterData, verses[..i + 1]) ==
        if aborted then (p, true)
        else match VerseRecordOf(bookId, parashaId, n, chapterData, verses[i])
          case None => (p, true)
          case Some(rec) => (Written(p, VersePath(bookId, parashaId, n, verses[i]), VerseRecord(rec)), false)
  {
    assert verses[..i + 1][..i] == verses[..i];
  }

  /** Once a verse throws, later verses are not converted. */
  lemma {:induction false} AbortIsFinal(o: Outcome, bookId: string, parashaId: string, n: nat, chapterData: Json, verses: seq<Json>, k: nat)
    requires k <= |verses| && VersesWritten(o, bookId, parashaId, n, chapterData, verses[..k]).1
    ensures VersesWritten(o, bookId, parashaId, n, chapterData, verses)
      == VersesWritten(o, bookId, parashaId, n, chapterData, verses[..k])
    decreases |verses|
  {
    if |verses| > k {
      var init := verses[..|verses| - 1];
      assert init[..k] == verses[..k];
      AbortIsFinal(o, bookId, parashaId, n, chapterData, init, k);
    } else {
      assert verses[..k] == verses;
    }
  }

  /** The verse at the first index whose record throws stops the
      conversion: only the verses before it are written, and no backup is
      made. */
  lemma FirstFailureStops(o: Outcome, bookId: string, parashaId: string, n: nat, k: nat)
    requires HasVerses(o.files, ChapterPath(bookId, parashaId, n))
    requires var verses := Elements(Field(o.files[ChapterPath(bookId, parashaId, n)].data, "verses"));
      var chapterData := o.files[ChapterPath(bookId, parashaId, n)].data;
      && k < |verses|
      && VerseRecordOf(bookId, parashaId, n, chapterData, verses[k]).None?
      && forall i :: 0 <= i < k ==> VerseRecordOf(bookId, parashaId, n, chapterData, verses[i]).Some?
    ensures var verses := Elements(Field(o.files[ChapterPath(bookId, parashaId, n)].data, "verses"));
      ChapterConverted(o, bookId, parashaId, n).writes == o.writes + VersePaths(bookId, parashaId, n, verses[..k])
  {
    var path := ChapterPath(bookId, parashaId, n);
    var chapterData := o.files[path].data;
    var verses := Elements(Field(chapterData, "verses"));
    AllVersesWritten(o, bookId, parashaId, n, chapterData, verses[..k]);
    assert verses[..k + 1][..k] == verses[..k];
    AbortIsFinal(o, bookId, parashaId, n, chapterData, verses, k + 1);
  }

  /** A chapter whose verses all convert gets one file per verse, in order,
      and then the backup, which holds the chapter file's original content. */
  lemma CompleteConversion(o: Outcome, bookId: string, parashaId: string, n: nat)
    requires HasVerses(o.files, ChapterPath(bookId, parashaId, n))
    requires var chapterData := o.files[ChapterPath(bookId, parashaId, n)].data;
      var verses := Elements(Field(chapterData, "verses"));
      forall i :: 0 <= i < |verses| ==> VerseRecordOf(bookId, parashaId, n, chapterData, verses[i]).Some?
    ensures var chapterData := o.files[ChapterPath(bookId, parashaId, n)].data;
      var verses := Elements(Field(chapterData, "verses"));
      var u := ChapterConverted(o, bookId, parashaId, n);
      && u.writes == o.writes + VersePaths(bookId, parashaId, n, verses) + [BackupPath(bookId, parashaId, n)]
      && BackupPath(bookId, parashaId, n) in u.files
      && u.files[BackupPath(bookId, parashaId, n)] == o.files[ChapterPath(bookId, parashaId, n)]
  {
    var chapterData := o.files[ChapterPath(bookId, parashaId, n)].data;
    var verses := Elements(Field(chapterData, "verses"));
    AllVersesWritten(o, bookId, parashaId, n, chapterData, verses);
    VersesKeepChapter(o, bookId, parashaId, n, chapterData, verses);
  }

  /** No verse file name is the chapter file's name: equal lengths would
      leave the parasha id at most three characters long, and then the
      verse name has '-' where `chapter-` has a letter. */
  lemma VersePathIsNotChapter(bookId: string, parashaId: string, n: nat, verse: Json)
    ensures VersePath(bookId, parashaId, n, verse) != ChapterPath(bookId, parashaId, n)
  {
    var pre := bookId + "/" + parashaId + "/";
    var m := Pad3(n);
    var num := PadStart3(FieldText(Field(verse, "number")));
    var v := parashaId + "-" + m + "-" + num + ".json";
    var c := "chapter-" + m + ".json";
    assert VersePath(bookId, parashaId, n, verse) == pre + v;
    assert ChapterPath(bookId, parashaId, n) == pre + c;
    VerseNameIsNotChapterName(parashaId, m, num);
    assert (pre + v)[|pre|..] == v && (pre + c)[|pre|..] == c;
  }

  lemma VerseNameIsNotChapterName(p: string, m: string, num: string)
    ensures p + "-" + m + "-" + num + ".json" != "chapter-" + m + ".json"
  {
    var v := p + "-" + m + "-" + num + ".json";
    if |v| == |"chapter-" + m + ".json"| {
      assert v[|p|] == '-';
      assert ("chapter-" + m + ".json")[|p|] == "chapter-"[|p|];
    }
  }

  /** Writing the verse files leaves the chapter file as it was. */
  lemma {:induction false} VersesKeepChapter(o: Outcome, bookId: string, parashaId: string, n: nat, chapterData: Json, verses: seq<Json>)
    requires ChapterPath(bookId, parashaId, n) in o.files
    ensures var r := VersesWritten(o, bookId, parashaId, n, chapterData, verses).0;
      r.files[ChapterPath(bookId, parashaId, n)] == o.files[ChapterPath(bookId, parashaId, n)]
  {
    if verses != [] {
      VersesKeepChapter(o, bookId, parashaId, n, chapterData, verses[..|verses| - 1]);
      VersePathIsNotChapter(bookId, parashaId, n, verses[|verses| - 1]);
    }
  }

  // ---------------------------------------------------------------------
  // Chapter-file selection

  /** The longest prefix of decimal digits. */
  function DigitPrefix(s: string): (d: string)
    ensures IsDigits(d) && d <= s
    ensures |d| < |s| ==> !IsDigit(s[|d|])
  {
    if s != [] && IsDigit(s[0]) then [s[0]] + DigitPrefix(s[1..]) else []
  }

  /** `chapter-(\d+)\.json` matched at the start of `s`: the digits must be
      the whole run, since a shorter run is followed by a digit. */
  function MatchHere(s: string): (r: Option<nat>)
    ensures r.Some? ==> StartsWith(s, "chapter-")
  {
    if StartsWith(s, "chapter-") then
      var d := DigitPrefix(s[8..]);
      if |d| >= 1 && StartsWith(s[8 + |d|..], ".json") then Some(ParseDecimal(d)) else None
    else None
  }

  /** `s.match(/chapter-(\d+)\.json/)` and `parseInt` of the group: the
      first position where the pattern matches (it is not anchored). */
  function ChapterMatch(s: string): (r: Option<nat>)
    ensures r.None? <==> NoMatchBefore(s, |s| + 1)
    ensures r.Some? ==>
      exists i :: 0 <= i <= |s| && MatchAt(s, i) == r && NoMatchBefore(s, i)
  {
    if MatchHere(s).Some? then
      assert MatchAt(s, 0) == MatchHere(s) by { assert s[0..] == s; }
      MatchHere(s)
    else if s == [] then
      assert MatchAt(s, 0) == MatchHere(s) by { assert s[0..] == s; }
      None
    else
      var r := ChapterMatch(s[1..]);
      assert MatchAt(s, 0) == MatchHere(s) by { assert s[0..] == s; }
      NoMatchShift(s, |s|);
      assert r.Some? ==>
        exists i :: 0 <= i <= |s| && MatchAt(s, i) == r && NoMatchBefore(s, i) by {
        if r.Some? {
          var j :| 0 <= j <= |s| - 1 && MatchAt(s[1..], j) == r && NoMatchBefore(s[1..], j);
          NoMatchShift(s, j);
          MatchAtShift(s, j + 1);
        }
      }
      r
  }

  /** The pattern tried at position `k` of `s`. */
  function MatchAt(s: string, k: nat): Option<nat>
    requires k <= |s|
  {
    MatchHere(s[k..])
  }

  lemma MatchAtShift(s: string, k: nat)
    requires 1 <= k <= |s|
    ensures MatchAt(s, k) == MatchAt(s[1..], k - 1)
  {
    assert s[k..] == s[1..][k - 1..];
  }

  /** The pattern matches at none of the first `n` positions of `s`. */
  predicate NoMatchBefore(s: string, n: int) {
    forall k: nat :: k < n && k <= |s| ==> MatchAt(s, k).None?
  }

  /** Dropping a first position that does not match shifts the others. */
  lemma NoMatchShift(s: string, n: nat)
    requires s != [] && MatchAt(s, 0).None? && n <= |s|
    ensures NoMatchBefore(s, n + 1) <==> NoMatchBefore(s[1..], n)
  {
    if NoMatchBefore(s[1..], n) {
      forall k: nat | k < n + 1 && k <= |s| ensures MatchAt(s, k).None? {
        if k > 0 { MatchAtShift(s, k); }
      }
    }
    if NoMatchBefore(s, n + 1) {
      forall k: nat | k < n && k <= |s| - 1 ensures MatchAt(s[1..], k).None? {
        MatchAtShift(s, k + 1);
      }
    }
  }

  /** The digit run of `d + rest` is `d` when `rest` does not begin with a
      digit. */
  lemma {:induction false} DigitPrefixOf(d: string, rest: string)
    requires IsDigits(d) && (rest == [] || !IsDigit(rest[0]))
    ensures DigitPrefix(d + rest) == d
  {
    if d != [] {
      assert (d + rest)[1..] == d[1..] + rest;
      DigitPrefixOf(d[1..], rest);
    }
  }

  /** The name the converter reads a chapter from is matched back to its
      number. */
  lemma ChapterFileNameMatches(n: nat)
    ensures ChapterMatch(ChapterFileName(n)) == Some(n)
  {
    var s := ChapterFileName(n);
    ParsePad3(n);
    assert s[8..] == Pad3(n) + ".json";
    DigitPrefixOf(Pad3(n), ".json");
    assert s[8 + |Pad3(n)|..] == ".json";
  }

  /** Whether a directory entry is a chapter file candidate
      (`startsWith('chapter-') && endsWith('.json')`). */
  predicate IsChapterFile(name: string) {
    StartsWith(name, "chapter-") && EndsWith(name, ".json")
  }

  /** The candidates of a listing, in listing order. */
  function ChapterFiles(listing: seq<string>): (r: seq<string>)
    ensures forall x :: x in r <==> x in listing && IsChapterFile(x)
    ensures |r| <= |listing|
  {
    if listing == [] then []
    else (if IsChapterFile(listing[0]) then [listing[0]] else []) + ChapterFiles(listing[1..])
  }

  /** `a <= b` in the default `sort` order, comparing characters one by
      one. */
  predicate NameLe(a: string, b: string) {
    a == [] || (b != [] && (a[0] < b[0] || (a[0] == b[0] && NameLe(a[1..], b[1..]))))
  }

  lemma {:induction false} NameLeTotal(a: string, b: string)
    ensures NameLe(a, b) || NameLe(b, a)
  {
    if a != [] && b != [] && a[0] == b[0] {
      NameLeTotal(a[1..], b[1..]);
    }
  }

  predicate SortedNames(s: seq<string>) {
    forall i :: 0 <= i < |s| - 1 ==> NameLe(s[i], s[i + 1])
  }

  function InsertName(x: string, s: seq<string>): (r: seq<string>)
    requires SortedNames(s)
    ensures SortedNames(r) && multiset(r) == multiset(s) + multiset{x}
    ensures |r| == |s| + 1 && (r[0] == x || (s != [] && r[0] == s[0]))
  {
    if s == [] then [x]
    else if NameLe(x, s[0]) then [x] + s
    else
      NameLeTotal(x, s[0]);
      var rest := InsertName(x, s[1..]);
      assert s == [s[0]] + s[1..];
      [s[0]] + rest
  }

  /** `.sort()` of the candidates: ordered and a permutation. */
  function SortNames(s: seq<string>): (r: seq<string>)
    ensures SortedNames(r) && multiset(r) == multiset(s)
  {
    if s == [] then []
    else
      assert s == s[..|s| - 1] + [s[|s| - 1]];
      InsertName(s[|s| - 1], SortNames(s[..|s| - 1]))
  }

  /** The chapter numbers handed on, in sorted name order; names the
      pattern does not match are skipped. */
  function ChapterNumbers(names: seq<string>): (r: seq<nat>)
    ensures |r| <= |names|
  {
    if names == [] then []
    else
      var rest := ChapterNumbers(names[1..]);
      (match ChapterMatch(names[0]) case Some(n) => [n] case None => []) + rest
  }

  /** A listing whose first name matches as chapter `n`. */
  lemma ChapterNumbersCons(names: seq<string>, n: nat)
    requires names != [] && ChapterMatch(names[0]) == Some(n)
    ensures ChapterNumbers(names) == [n] + ChapterNumbers(names[1..])
  {
  }

  /** `chapter-NNN.json` for each number, in order. */
  function ChapterFileNames(ns: seq<nat>): (names: seq<string>)
    ensures |names| == |ns|
  {
    if ns == [] then [] else [ChapterFileName(ns[0])] + ChapterFileNames(ns[1..])
  }

  /** Files named exactly as the converter names chapter files yield their
      numbers, in order. */
  lemma {:induction false} CanonicalChapterNumbers(ns: seq<nat>)
    ensures ChapterNumbers(ChapterFileNames(ns)) == ns
  {
    if ns != [] {
      CanonicalChapterStep(ns);
      CanonicalChapterNumbers(ns[1..]);
      assert [ns[0]] + ns[1..] == ns;
    }
  }

  lemma CanonicalChapterStep(ns: seq<nat>)
    requires ns != []
    ensures ChapterNumbers(ChapterFileNames(ns)) == [ns[0]] + ChapterNumbers(ChapterFileNames(ns[1..]))
  {
    var names := ChapterFileNames(ns);
    assert names[0] == ChapterFileName(ns[0]) && names[1..] == ChapterFileNames(ns[1..]);
    ChapterFileNameMatches(ns[0]);
    ChapterNumbersCons(names, ns[0]);
  }

  /** The entries of a listing that are directories. */
  function Subdirectories(parent: string, listing: seq<string>, dirs: map<string, seq<string>>): (r: seq<string>)
    ensures forall x :: x in r <==> x in listing && parent + "/" + x in dirs
  {
    if listing == [] then []
    else (if parent + "/" + listing[0] in dirs then [listing[0]] else []) + Subdirectories(parent, listing[1..], dirs)
  }

  // ---------------------------------------------------------------------
  // Books

  /** The chapters converted for one parasha, in order. */
  function ParashaConverted(o: Outcome, bookId: string, parashaId: string, numbers: seq<nat>): (u: Outcome)
    ensures o.files.Keys <= u.files.Keys && o.writes <= u.writes
  {
    if numbers == [] then o
    else ChapterConverted(ParashaConverted(o, bookId, parashaId, numbers[..|numbers| - 1]), bookId, parashaId, numbers[|numbers| - 1])
  }

  lemma ParashaConvertedStep(o: Outcome, bookId: string, parashaId: string, numbers: seq<nat>, i: nat)
    requires i < |numbers|
    ensures ParashaConverted(o, bookId, parashaId, numbers[..i + 1])
            == ChapterConverted(ParashaConverted(o, bookId, parashaId, numbers[..i]), bookId, parashaId, numbers[i])
  {
    assert numbers[..i + 1][..i] == numbers[..i];
  }

  lemma ParashasConvertedStep(o: Outcome, dirs: map<string, seq<string>>, bookId: string, parashas: seq<string>, i: nat)
    requires i < |parashas|
    ensures ParashasConverted(o, dirs, bookId, parashas[..i + 1])
            == ParashaConverted(ParashasConverted(o, dirs, bookId, parashas[..i]), bookId, parashas[i],
                 ParashaChapters(dirs, bookId, parashas[i]))
  {
    assert parashas[..i + 1][..i] == parashas[..i];
  }

  /** The numbers a parasha folder's listing yields. */
  function ParashaChapters(dirs: map<string, seq<string>>, bookId: string, parashaId: string): seq<nat> {
    var dir := bookId + "/" + parashaId;
    if dir in dirs then ChapterNumbers(SortNames(ChapterFiles(dirs[dir]))) else []
  }

  function ParashasConverted(o: Outcome, dirs: map<string, seq<string>>, bookId: string, parashas: seq<string>): (u: Outcome)
    ensures o.files.Keys <= u.files.Keys && o.writes <= u.writes
  {
    if parashas == [] then o
    else
      var p := parashas[|parashas| - 1];
      var prev := ParashasConverted(o, dirs, bookId, parashas[..|parashas| - 1]);
      ParashaConverted(prev, bookId, p, ParashaChapters(dirs, bookId, p))
  }

  /** `convertBook`: nothing for a missing book folder; else each parasha
      sub-folder in listing order. */
  function BookConverted(o: Outcome, dirs: map<string, seq<string>>, bookId: string): (u: Outcome)
    ensures bookId !in dirs ==> u == o
    ensures o.files.Keys <= u.files.Keys && o.writes <= u.writes
  {
    if bookId !in dirs then o
    else ParashasConverted(o, dirs, bookId, Subdirectories(bookId, dirs[bookId], dirs))
  }

  /** The converter acting on the data directory. */
  class DataTree {
    const dirs: map<string, seq<string>>
    var files: map<string, Stored>
    ghost var writes: seq<string>

    ghost function Now(): Outcome
      reads this
    {
      Outcome(files, writes)
    }

    constructor (dirs: map<string, seq<string>>, files: map<string, Stored>)
      ensures this.dirs == dirs && Now() == Outcome(files, [])
    {
      this.dirs := dirs;
      this.files := files;
      writes := [];
    }

    method Write(path: string, content: Stored)
      modifies this
      ensures Now() == Written(old(Now()), path, content)
    {
      files := files[path := content];
      writes := writes + [path];
    }

    method ConvertChapterToVerses(bookId: string, parashaId: string, n: nat)
      modifies this
      ensures Now() == ChapterConverted(old(Now()), bookId, parashaId, n)
    {
      var path := ChapterPath(bookId, parashaId, n);
      if !HasVerses(files, path) {
        return;
      }
      var chapterData := files[path].data;
      var verses := Elements(Field(chapterData, "verses"));
      ghost var o0 := Now();
      var i := 0;
      while i < |verses|
        invariant 0 <= i <= |verses|
        invariant VersesWritten(o0, bookId, parashaId, n, chapterData, verses[..i]) == (Now(), false)
      {
        VersesWrittenStep(o0, bookId, parashaId, n, chapterData, verses, i);
        var rec := VerseRecordOf(bookId, parashaId, n, chapterData, verses[i]);
        if rec.None? {
          AbortIsFinal(o0, bookId, parashaId, n, chapterData, verses, i + 1);
          return;
        }
        Write(VersePath(bookId, parashaId, n, verses[i]), VerseRecord(rec.value));
        i := i + 1;
      }
      assert verses[..|verses|] == verses;
      Write(BackupPath(bookId, parashaId, n), files[path]);
    }

    method ConvertParasha(bookId: string, parashaId: string)
      modifies this
      ensures Now() == ParashaConverted(old(Now()), bookId, parashaId, ParashaChapters(dirs, bookId, parashaId))
    {
      var numbers := ParashaChapters(dirs, bookId, parashaId);
      ghost var o0 := Now();
      var i := 0;
      while i < |numbers|
        invariant 0 <= i <= |numbers|
        invariant Now() == ParashaConverted(o0, bookId, parashaId, numbers[..i])
      {
        ParashaConvertedStep(o0, bookId, parashaId, numbers, i);
        ConvertChapterToVerses(bookId, parashaId, numbers[i]);
        i := i + 1;
      }
      assert numbers[..|numbers|] == numbers;
    }

    method ConvertBook(bookId: string)
      modifies this
      ensures Now() == BookConverted(old(Now()), dirs, bookId)
    {
      if bookId !in dirs {
        return;
      }
      var parashas := Subdirectories(bookId, dirs[bookId], dirs);
      ghost var o0 := Now();
      var i := 0;
      while i < |parashas|
        invariant 0 <= i <= |parashas|
        invariant Now() == ParashasConverted(o0, dirs, bookId, parashas[..i])
      {
        ParashasConvertedStep(o0, dirs, bookId, parashas, i);
        ConvertParasha(bookId, parashas[i]);
        i := i + 1;
      }
      assert parashas[..|parashas|] == parashas;
    }
  }
}
