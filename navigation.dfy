/** The `TorahNavigation` component of `src/components/TorahNavigation.tsx`:
    the book/parasha/chapter/verse selects, the previous/next arrows, and
    the effects that fill the chapter and verse lists from
    `torah-structure.json` and `parashas.json`.

    The props are the fields `currentBook` (an English book name such as
    "Genesis"), `currentParasha`, `currentChapter`, `currentVerse` and the
    three `available*` lists; the state hooks are the fields
    `torahStructure`, `allParashas`, `allChapters` and `allVerses`. */
module Navigation {
  import opened Wrappers
  import opened Text
  import opened Ranges
  import opened TorahTypes
  import opened Resolver

  /** The outcome of one `fetch` followed by `response.json()`. */
  datatype Reply<T> = Rejected | NotOk | NotJson | Json(value: T)

  /** An `onNavigate(book, chapter, verse, parasha?)` call. */
  datatype NavRequest = NavRequest(book: string, chapter: int, verse: int, parasha: Option<string>)

  /** `getParashaByChapter` of the component: the id of the first parasha
      whose chapter range holds the chapter, with no verse disambiguation. */
  function FirstParashaFor(ps: seq<Parasha>, chapter: int): (r: Option<string>)
    ensures r.None? <==> forall p :: p in ps ==> !Covers(p, chapter)
    ensures r.Some? ==> exists i :: 0 <= i < |ps| && ps[i].id == r.value && Covers(ps[i], chapter)
                                    && forall j :: 0 <= j < i ==> !Covers(ps[j], chapter)
  {
    if ps == [] then None
    else if Covers(ps[0], chapter) then Some(ps[0].id)
    else
      var r := FirstParashaFor(ps[1..], chapter);
      if r.Some? then
        ghost var i :| 0 <= i < |ps[1..]| && ps[1..][i].id == r.value && Covers(ps[1..][i], chapter)
                       && forall j :: 0 <= j < i ==> !Covers(ps[1..][j], chapter);
        assert ps[i + 1].id == r.value && Covers(ps[i + 1], chapter);
        assert forall j :: 0 <= j < i + 1 ==> !Covers(ps[j], chapter) by {
          forall j | 0 <= j < i + 1 ensures !Covers(ps[j], chapter) {
            if j > 0 { assert ps[j] == ps[1..][j - 1]; }
          }
        }
        r
      else r
  }

  /** The component's resolver agrees with the loader's when no verse is
      given: both pick the first parasha holding the chapter. */
  lemma {:induction false} FirstParashaAgreesWithLoader(ps: seq<Parasha>, chapter: int)
    ensures FirstParashaFor(ps, chapter) == match ParashaByChapter(ps, chapter, None)
      case Some(p) => Some(p.id)
      case None => None
  {
    if ps != [] && !Covers(ps[0], chapter) {
      FirstParashaAgreesWithLoader(ps[1..], chapter);
      CandidatesSkip(ps, chapter);
    } else if ps != [] {
      assert Candidates(ps, chapter)[0] == ps[0];
    }
  }

  lemma CandidatesSkip(ps: seq<Parasha>, chapter: int)
    requires ps != [] && !Covers(ps[0], chapter)
    ensures Candidates(ps, chapter) == Candidates(ps[1..], chapter)
  {
  }

  /** `versesArray.indexOf(v)`: the first position, or -1. */
  function IndexOf(xs: seq<int>, v: int): (i: int)
    ensures -1 <= i < |xs|
    ensures i == -1 <==> v !in xs
    ensures i >= 0 ==> xs[i] == v && v !in xs[..i]
  {
    if xs == [] then -1
    else if xs[0] == v then 0
    else
      var k := IndexOf(xs[1..], v);
      if k == -1 then -1
      else
        assert xs[..k + 1] == [xs[0]] + xs[1..][..k];
        k + 1
  }

  /** `Math.max(...xs)` of a non-empty list. */
  function MaxOf(xs: seq<int>): (m: int)
    requires xs != []
    ensures m in xs
    ensures forall x :: x in xs ==> x <= m
  {
    if |xs| == 1 then xs[0]
    else
      var rest := MaxOf(xs[1..]);
      assert forall x :: x in xs ==> x == xs[0] || x in xs[1..];
      if xs[0] >= rest then xs[0] else rest
  }

  /** `allVerses.length > 0 ? allVerses : [1]`. */
  function VersesOrOne(verses: seq<int>): (r: seq<int>)
    ensures r != []
    ensures verses != [] ==> r == verses
  {
    if verses != [] then verses else [1]
  }

  /** The "previous" arrow: disabled at verse 1 or below, otherwise the
      element before the current verse in the list, if there is one. */
  function PrevVerse(verses: seq<int>, current: int): (r: Option<int>)
    ensures r.Some? ==> current > 1
    ensures r.Some? ==> exists i :: 0 < i < |VersesOrOne(verses)|
                          && VersesOrOne(verses)[i] == current && r.value == VersesOrOne(verses)[i - 1]
    ensures r.None? ==> current <= 1 || IndexOf(VersesOrOne(verses), current) <= 0
  {
    if current <= 1 then None
    else
      var vs := VersesOrOne(verses);
      var i := IndexOf(vs, current);
      if i > 0 then Some(vs[i - 1]) else None
  }

  /** The "next" arrow: disabled at or beyond the largest verse, otherwise
      the element after the current verse; a verse missing from the list
      has index -1, so "next" then goes to the first element. */
  function NextVerse(verses: seq<int>, current: int): (r: Option<int>)
    ensures r.Some? ==> current < MaxOf(VersesOrOne(verses))
    ensures current in VersesOrOne(verses) && r.Some? ==>
      exists i :: 0 <= i < |VersesOrOne(verses)| - 1 && VersesOrOne(verses)[i] == current
                  && r.value == VersesOrOne(verses)[i + 1]
    ensures current !in VersesOrOne(verses) && current < MaxOf(VersesOrOne(verses)) ==>
      r == Some(VersesOrOne(verses)[0])
  {
    var vs := VersesOrOne(verses);
    if current >= MaxOf(vs) then None
    else
      var i := IndexOf(vs, current);
      if i < |vs| - 1 then Some(vs[i + 1]) else None
  }

  /** In an ascending list the arrows move strictly backwards and forwards,
      to the neighbouring verse. */
  lemma ArrowsStepInOrder(verses: seq<int>, current: int)
    requires forall j, k :: 0 <= j < k < |verses| ==> verses[j] < verses[k]
    requires current in verses
    ensures PrevVerse(verses, current).Some? ==> PrevVerse(verses, current).value < current
    ensures NextVerse(verses, current).Some? ==> NextVerse(verses, current).value > current
    ensures NextVerse(verses, current).None? ==> current == MaxOf(verses)
  {
    var i := IndexOf(verses, current);
    if NextVerse(verses, current).None? {
      if i < |verses| - 1 {
        assert verses[i] < verses[|verses| - 1];
      }
      assert forall x :: x in verses ==> x <= current by {
        forall x | x in verses ensures x <= current {
          var k :| 0 <= k < |verses| && verses[k] == x;
          assert k <= i;
        }
      }
    }
  }

  /** `${chapter}_${parasha}`, the key of a shared chapter's own entry. */
  function SpecialKey(chapter: nat, parasha: string): string {
    NatToString(chapter) + "_" + parasha
  }

  /** `a || b` on optional numbers: `a` unless it is missing or 0. */
  function OrElse(a: Option<int>, b: Option<int>): (r: Option<int>)
    ensures a.Some? && a.value != 0 ==> r == a
    ensures (a.None? || a.value == 0) ==> r == b
  {
    if a.Some? && a.value != 0 then a else b
  }

  /** `books[book]?.chaptersData?.[key]` with the book key used as given. */
  function RawEntry(s: TorahStructure, book: string, key: string): Option<ChapterData> {
    if book in s.books && key in s.books[book].chaptersData then Some(s.books[book].chaptersData[key]) else None
  }

  /** The range the verse effect computes for a selected parasha found in
      the list (lines 166-195). */
  function ParashaRange(s: TorahStructure, book: string, chapter: nat, p: Parasha, id: string): VerseRange {
    var bookKey := ToLowerAscii(book);
    match RawEntry(s, bookKey, SpecialKey(chapter, id))
    case Some(special) =>
      VerseRange(OrElse(special.startVerse, p.startVerse), OrElse(special.endVerse, Some(special.verses)))
    case None =>
      var whole := match RawEntry(s, bookKey, NatToString(chapter))
        case Some(d) => OrElse(Some(d.verses), Some(1))
        case None => Some(1);
      if chapter == p.startChapter then
        VerseRange(p.startVerse, if chapter == p.endChapter then p.endVerse else whole)
      else if chapter == p.endChapter then VerseRange(Some(1), p.endVerse)
      else VerseRange(Some(1), whole)
  }

  /** The whole-chapter fallback (lines 211-224): `1..count`, else `[1]`;
      the book key is NOT lower-cased here. */
  function WholeChapter(s: TorahStructure, book: string, chapter: nat): seq<int> {
    match RawEntry(s, book, NatToString(chapter))
    case Some(d) => Consecutive(1, d.verses)
    case None => [1]
  }

  /** The push loop of the verse effect: the range's verses when both
      ends are known, none otherwise. */
  method CollectVerses(r: VerseRange) returns (verses: seq<int>)
    ensures verses == RangeVerses(r)
  {
    verses := [];
    if r.start.Some? && r.end.Some? {
      verses := CollectRange(r.start.value, r.end.value);
    }
  }

  /** The verse list after the verse effect (lines 143-226), or `current`
      where the effect leaves it alone. */
  function EffectVerses(structure: Option<TorahStructure>, book: string, chapter: nat,
                        parasha: Option<string>, ps: seq<Parasha>, current: seq<int>): seq<int>
  {
    if structure.None? || chapter == 0 then current
    else
      var s := structure.value;
      if |ps| > 0 && (parasha.None? || parasha.value == "") then
        match RawEntry(s, book, NatToString(chapter))
        case Some(d) => Consecutive(1, d.verses)
        case None => current
      else if |ps| > 0 && FindById(ps, parasha.value).Some? then
        RangeVerses(ParashaRange(s, book, chapter, FindById(ps, parasha.value).value, parasha.value))
      else WholeChapter(s, book, chapter)
  }

  /** A shared chapter's own entry decides the range: its `startVerse`
      (or the parasha's) through its `endVerse` (or its verse count). */
  lemma SpecialEntryDecides(s: TorahStructure, book: string, chapter: nat, id: string,
                            ps: seq<Parasha>, current: seq<int>, e: ChapterData, lo: int, hi: int)
    requires chapter != 0 && id != ""
    requires FindById(ps, id).Some?
    requires RawEntry(s, ToLowerAscii(book), SpecialKey(chapter, id)) == Some(e)
    requires OrElse(e.startVerse, FindById(ps, id).value.startVerse) == Some(lo)
    requires OrElse(e.endVerse, Some(e.verses)) == Some(hi)
    ensures forall v :: v in EffectVerses(Some(s), book, chapter, Some(id), ps, current) <==> lo <= v <= hi
  {
  }

  /** Without a shared-chapter entry, a parasha's middle chapter shows all
      its verses, and its last chapter shows verses 1 to `endVerse`. */
  lemma OrdinaryParashaChapter(s: TorahStructure, book: string, chapter: nat, id: string,
                               ps: seq<Parasha>, current: seq<int>)
    requires chapter != 0 && id != ""
    requires FindById(ps, id).Some?
    requires RawEntry(s, ToLowerAscii(book), SpecialKey(chapter, id)).None?
    ensures var p := FindById(ps, id).value;
      var vs := EffectVerses(Some(s), book, chapter, Some(id), ps, current);
      && (p.startChapter != chapter && p.endChapter == chapter && p.endVerse.Some? ==>
            forall v :: v in vs <==> 1 <= v <= p.endVerse.value)
      && (p.startChapter != chapter && p.endChapter != chapter
          && RawEntry(s, ToLowerAscii(book), NatToString(chapter)).Some?
          && RawEntry(s, ToLowerAscii(book), NatToString(chapter)).value.verses > 0 ==>
            forall v :: v in vs <==> 1 <= v <= RawEntry(s, ToLowerAscii(book), NatToString(chapter)).value.verses)
  {
    var p := FindById(ps, id).value;
    ParashaEffect(s, book, chapter, id, ps, current);
    var r := ParashaRange(s, book, chapter, p, id);
    var whole := RawEntry(s, ToLowerAscii(book), NatToString(chapter));
    if p.startChapter != chapter && p.endChapter == chapter && p.endVerse.Some? {
      assert r == VerseRange(Some(1), p.endVerse);
    }
    if p.startChapter != chapter && p.endChapter != chapter && whole.Some? && whole.value.verses > 0 {
      assert r == VerseRange(Some(1), Some(whole.value.verses));
    }
  }

  /** A parasha found in the list makes the effect show its range. */
  lemma ParashaEffect(s: TorahStructure, book: string, chapter: nat, id: string,
                      ps: seq<Parasha>, current: seq<int>)
    requires chapter != 0 && id != ""
    requires FindById(ps, id).Some?
    ensures EffectVerses(Some(s), book, chapter, Some(id), ps, current)
      == RangeVerses(ParashaRange(s, book, chapter, FindById(ps, id).value, id))
  {
    assert FindById(ps, id).value in ps;
  }

  /** With no parasha selected the effect looks the chapter up under the
      book name exactly as given; when it is missing there the list is
      left as it was, not reset to `[1]`. */
  lemma NoParashaKeepsListWhenChapterMissing(s: TorahStructure, book: string, chapter: nat,
                                              ps: seq<Parasha>, current: seq<int>)
    requires chapter != 0 && |ps| > 0
    requires RawEntry(s, book, NatToString(chapter)).None?
    ensures EffectVerses(Some(s), book, chapter, None, ps, current) == current
  {
  }

  /** A selected parasha missing from the list falls back to the whole
      chapter, or `[1]` when the structure has no entry for it. */
  lemma UnknownParashaGivesWholeChapter(s: TorahStructure, book: string, chapter: nat, id: string,
                                        ps: seq<Parasha>, current: seq<int>)
    requires chapter != 0 && id != ""
    requires FindById(ps, id).None?
    ensures var vs := EffectVerses(Some(s), book, chapter, Some(id), ps, current);
      && (RawEntry(s, book, NatToString(chapter)).None? ==> vs == [1])
      && (RawEntry(s, book, NatToString(chapter)).Some? ==>
            forall v :: v in vs <==> 1 <= v <= RawEntry(s, book, NatToString(chapter)).value.verses)
  {
  }

  class TorahNavigation {
    var currentBook: string
    var currentParasha: Option<string>
    var currentChapter: nat
    var currentVerse: int
    var availableParashas: seq<Parasha>
    var availableChapters: seq<int>
    var availableVerses: seq<int>

    var torahStructure: Option<TorahStructure>
    var allParashas: seq<Parasha>
    var allChapters: seq<int>
    var allVerses: seq<int>

    /** First render: the lists start from the props, the structure is not
        loaded yet. */
    constructor(book: string, parasha: Option<string>, chapter: nat, verse: int,
                parashas: seq<Parasha>, chapters: seq<int>, verses: seq<int>)
      ensures currentBook == book && currentParasha == parasha
      ensures currentChapter == chapter && currentVerse == verse
      ensures availableParashas == parashas && availableChapters == chapters && availableVerses == verses
      ensures torahStructure.None? && allParashas == parashas && allChapters == [] && allVerses == []
    {
      currentBook, currentParasha, currentChapter, currentVerse := book, parasha, chapter, verse;
      availableParashas, availableChapters, availableVerses := parashas, chapters, verses;
      torahStructure := None;
      allParashas, allChapters, allVerses := parashas, [], [];
    }

    /** The structure-loading effect (lines 52-126). Both files answered ok:
        keep the structure, take the book's parashot if it has any, and
        rebuild the chapter and verse lists from the structure. A rejected
        fetch or a body that is not JSON falls back to the props (`[1]`
        for an empty list). A non-ok status changes nothing. */
    method LoadTorahStructure(structureReply: Reply<TorahStructure>, parashasReply: Reply<ParashaTable>)
      modifies this
      ensures currentBook == old(currentBook) && currentParasha == old(currentParasha)
      ensures currentChapter == old(currentChapter) && currentVerse == old(currentVerse)
      ensures availableParashas == old(availableParashas) && availableChapters == old(availableChapters)
      ensures availableVerses == old(availableVerses)
      ensures structureReply.Rejected? || parashasReply.Rejected?
              || (structureReply != NotOk && parashasReply != NotOk && (structureReply.NotJson? || parashasReply.NotJson?)) ==>
        && torahStructure == old(torahStructure)
        && allParashas == availableParashas
        && allChapters == (if availableChapters != [] then availableChapters else [1])
        && allVerses == (if availableVerses != [] then availableVerses else [1])
      ensures !structureReply.Rejected? && !parashasReply.Rejected? && (structureReply.NotOk? || parashasReply.NotOk?) ==>
        && torahStructure == old(torahStructure) && allParashas == old(allParashas)
        && allChapters == old(allChapters) && allVerses == old(allVerses)
      ensures structureReply.Json? && parashasReply.Json? ==>
        var s := structureReply.value;
        var key := ToLowerAscii(currentBook);
        var bookParashas := if key in parashasReply.value then parashasReply.value[key] else [];
        && torahStructure == Some(s)
        && allParashas == (if bookParashas != [] then bookParashas else availableParashas)
        && allChapters == (if key in s.books then Consecutive(1, s.books[key].chapters) else old(allChapters))
        && allVerses == (match RawEntry(s, key, NatToString(currentChapter))
                         case Some(d) => Consecutive(1, d.verses)
                         case None => old(allVerses))
    {
      if structureReply.Rejected? || parashasReply.Rejected?
         || (structureReply != NotOk && parashasReply != NotOk && (structureReply.NotJson? || parashasReply.NotJson?)) {
        allParashas := availableParashas;
        allChapters := if availableChapters != [] then availableChapters else [1];
        allVerses := if availableVerses != [] then availableVerses else [1];
        return;
      }
      if structureReply.NotOk? || parashasReply.NotOk? {
        return;
      }
      var s := structureReply.value;
      torahStructure := Some(s);
      var key := ToLowerAscii(currentBook);
      var bookParashas := if key in parashasReply.value then parashasReply.value[key] else [];
      if bookParashas != [] {
        allParashas := bookParashas;
      } else {
        allParashas := availableParashas;
      }
      if key in s.books {
        allChapters := CollectRange(1, s.books[key].chapters);
      }
      var entry := RawEntry(s, key, NatToString(currentChapter));
      if entry.Some? {
        allVerses := CollectRange(1, entry.value.verses);
      }
    }

    /** The effect on a parasha change (lines 129-140): the chapter list
        becomes the parasha's chapter range. */
    method ShowParashaChapters()
      modifies this`allChapters
      ensures currentParasha.Some? && currentParasha.value != "" && |allParashas| > 0
              && FindById(allParashas, currentParasha.value).Some? ==>
        var p := FindById(allParashas, currentParasha.value).value;
        allChapters == Consecutive(p.startChapter, p.endChapter)
      ensures !(currentParasha.Some? && currentParasha.value != "" && |allParashas| > 0
                && FindById(allParashas, currentParasha.value).Some?) ==>
        allChapters == old(allChapters)
    {
      if currentParasha.Some? && currentParasha.value != "" && |allParashas| > 0 {
        var found := FindById(allParashas, currentParasha.value);
        if found.Some? {
          var p := found.value;
          var chapters := [];
          var i := p.startChapter;
          while i <= p.endChapter
            invariant p.startChapter <= i <= if p.startChapter <= p.endChapter then p.endChapter + 1 else p.startChapter
            invariant chapters == Consecutive(p.startChapter, i - 1)
            decreases p.endChapter - i
          {
            chapters := chapters + [i];
            i := i + 1;
          }
          allChapters := chapters;
        }
      }
    }

    /** The verse effect (lines 143-226). */
    method ShowVerses()
      modifies this`allVerses
      ensures allVerses == EffectVerses(torahStructure, currentBook, currentChapter, currentParasha,
                                        allParashas, old(allVerses))
    {
      var range: Option<VerseRange> := None;
      if torahStructure.Some? && currentChapter != 0 && |allParashas| > 0 {
        var s := torahStructure.value;
        if currentParasha.None? || currentParasha.value == "" {
          var entry := RawEntry(s, currentBook, NatToString(currentChapter));
          if entry.Some? {
            range := Some(VerseRange(Some(1), Some(entry.value.verses)));
          } else {
            return;
          }
        } else {
          var found := FindById(allParashas, currentParasha.value);
          if found.Some? {
            range := Some(ParashaRange(s, currentBook, currentChapter, found.value, currentParasha.value));
          }
        }
      }
      if range.None? {
        if torahStructure.Some? && currentChapter != 0 {
          var entry := RawEntry(torahStructure.value, currentBook, NatToString(currentChapter));
          if entry.Some? {
            range := Some(VerseRange(Some(1), Some(entry.value.verses)));
          } else {
            allVerses := [1];
            return;
          }
        } else {
          return;
        }
      }
      allVerses := CollectVerses(range.value);
    }

    /** `getParashaByChapter(chapter)` of the component. */
    function ParashaForChapter(chapter: int): (r: Option<string>)
      reads this
      ensures r == FirstParashaFor(allParashas, chapter)
    {
      FirstParashaFor(allParashas, chapter)
    }

    /** `getChaptersForParasha(parashaId)`: the parasha's chapter range,
        ascending, or `allChapters` for an unknown id. */
    method ChaptersForParasha(id: string) returns (r: seq<int>)
      ensures FindById(allParashas, id).None? ==> r == allChapters
      ensures FindById(allParashas, id).Some? ==>
        var p := FindById(allParashas, id).value;
        && r == Consecutive(p.startChapter, p.endChapter)
        && (forall c :: c in r <==> p.startChapter <= c <= p.endChapter)
        && forall j, k :: 0 <= j < k < |r| ==> r[j] < r[k]
    {
      var found := FindById(allParashas, id);
      if found.None? {
        return allChapters;
      }
      var p := found.value;
      r := [];
      var i := p.startChapter;
      while i <= p.endChapter
        invariant p.startChapter <= i <= if p.startChapter <= p.endChapter then p.endChapter + 1 else p.startChapter
        invariant r == Consecutive(p.startChapter, i - 1)
        decreases p.endChapter - i
      {
        r := r + [i];
        i := i + 1;
      }
    }

    /** The chapters the chapter select offers (line 345). */
    method ChapterOptions() returns (r: seq<int>)
      ensures (currentParasha.None? || currentParasha.value == "") ==>
        r == if allChapters != [] then allChapters else [1]
      ensures currentParasha.Some? && currentParasha.value != "" && FindById(allParashas, currentParasha.value).None? ==>
        r == allChapters
      ensures currentParasha.Some? && currentParasha.value != "" && FindById(allParashas, currentParasha.value).Some? ==>
        var p := FindById(allParashas, currentParasha.value).value;
        r == Consecutive(p.startChapter, p.endChapter)
    {
      if currentParasha.Some? && currentParasha.value != "" {
        r := ChaptersForParasha(currentParasha.value);
      } else {
        r := if allChapters != [] then allChapters else [1];
      }
    }

    /** Book select: chapter 1, verse 1, no parasha. */
    method OnBookSelect(value: string) returns (req: NavRequest)
      ensures req == NavRequest(value, 1, 1, None)
    {
      req := NavRequest(value, 1, 1, None);
    }

    /** Parasha select: the parasha's first chapter, verse 1; an id not in
        the list does nothing. */
    method OnParashaSelect(value: string) returns (req: Option<NavRequest>)
      ensures FindById(allParashas, value).None? ==> req.None?
      ensures FindById(allParashas, value).Some? ==>
        req == Some(NavRequest(currentBook, FindById(allParashas, value).value.startChapter, 1, Some(value)))
    {
      var found := FindById(allParashas, value);
      if found.Some? {
        req := Some(NavRequest(currentBook, found.value.startChapter, 1, Some(value)));
      } else {
        req := None;
      }
    }

    /** Chapter select: verse 1 under the first parasha holding the chapter.
        The offered values are chapter numbers written in decimal. */
    method OnChapterSelect(value: string) returns (req: NavRequest)
      requires |value| > 0 && IsDigits(value)
      ensures req.book == currentBook && req.verse == 1
      ensures req.chapter == ParseDecimal(value)
      ensures req.parasha == FirstParashaFor(allParashas, ParseDecimal(value))
    {
      var chapter := ParseDecimal(value);
      req := NavRequest(currentBook, chapter, 1, ParashaForChapter(chapter));
    }

    /** Verse select: everything else stays. */
    method OnVerseSelect(value: string) returns (req: NavRequest)
      requires |value| > 0 && IsDigits(value)
      ensures req == NavRequest(currentBook, currentChapter, ParseDecimal(value), currentParasha)
    {
      req := NavRequest(currentBook, currentChapter, ParseDecimal(value), currentParasha);
    }

    /** The "previous" arrow's click (lines 384-391). */
    method OnPrev() returns (req: Option<NavRequest>)
      ensures req.None? <==> PrevVerse(allVerses, currentVerse).None?
      ensures req.Some? ==>
        req.value == NavRequest(currentBook, currentChapter, PrevVerse(allVerses, currentVerse).value, currentParasha)
    {
      var target := PrevVerse(allVerses, currentVerse);
      if target.Some? {
        req := Some(NavRequest(currentBook, currentChapter, target.value, currentParasha));
      } else {
        req := None;
      }
    }

    /** The "next" arrow's click (lines 399-406). */
    method OnNext() returns (req: Option<NavRequest>)
      ensures req.None? <==> NextVerse(allVerses, currentVerse).None?
      ensures req.Some? ==>
        req.value == NavRequest(currentBook, currentChapter, NextVerse(allVerses, currentVerse).value, currentParasha)
    {
      var target := NextVerse(allVerses, currentVerse);
      if target.Some? {
        req := Some(NavRequest(currentBook, currentChapter, target.value, currentParasha));
      } else {
        req := None;
      }
    }
  }

  /** A chapter picked from the select arrives as the number it shows. */
  lemma ChapterSelectRoundTrip(n: nat)
    ensures |NatToString(n)| > 0 && IsDigits(NatToString(n)) && ParseDecimal(NatToString(n)) == n
  {
    ParseNatToString(n);
  }
}
