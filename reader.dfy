/** The reading page of `src/pages/Index.tsx`: the navigation coordinates
    it keeps (`currentBookId`, `currentChapterNum`, `currentVerseNum`,
    `currentParashaId`), the active word, the start verse of a parasha that
    begins inside a chapter, and the commentary entries handed to the
    commentary panel. */
module Reader {
  import opened Wrappers
  import opened TorahTypes

  /** The parashot that begin inside a chapter, as (book, parasha, chapter,
      first verse). */
  const Overlaps: seq<(string, string, int, int)> := [
    ("genesis", "noach", 6, 9), ("genesis", "toldot", 25, 19), ("genesis", "vayetzei", 28, 10),
    ("genesis", "vayishlach", 32, 4), ("genesis", "vayigash", 44, 18), ("genesis", "vayechi", 47, 28),
    ("exodus", "vaera", 6, 2), ("exodus", "beshalach", 13, 17), ("exodus", "tetzaveh", 27, 20),
    ("exodus", "ki_tisa", 30, 11), ("exodus", "pekudei", 38, 21),
    ("leviticus", "bechukotai", 26, 11),
    ("numbers", "nasso", 4, 21), ("numbers", "balak", 22, 2), ("numbers", "pinchas", 25, 10),
    ("numbers", "matot", 30, 2),
    ("deuteronomy", "vaetchanan", 3, 23), ("deuteronomy", "eikev", 7, 12), ("deuteronomy", "reeh", 11, 26),
    ("deuteronomy", "shoftim", 16, 18), ("deuteronomy", "ki_teitzei", 21, 10), ("deuteronomy", "nitzavim", 29, 9)
  ]

  /** The table's entry for (book, parasha): the chapter the parasha starts
      in and its first verse there. */
  function OverlapOf(book: string, parasha: string): Option<(int, int)> {
    match book
    case "genesis" => (match parasha
      case "noach" => Some((6, 9))
      case "toldot" => Some((25, 19))
      case "vayetzei" => Some((28, 10))
      case "vayishlach" => Some((32, 4))
      case "vayigash" => Some((44, 18))
      case "vayechi" => Some((47, 28))
      case _ => None)
    case "exodus" => (match parasha
      case "vaera" => Some((6, 2))
      case "beshalach" => Some((13, 17))
      case "tetzaveh" => Some((27, 20))
      case "ki_tisa" => Some((30, 11))
      case "pekudei" => Some((38, 21))
      case _ => None)
    case "leviticus" => (match parasha
      case "bechukotai" => Some((26, 11))
      case _ => None)
    case "numbers" => (match parasha
      case "nasso" => Some((4, 21))
      case "balak" => Some((22, 2))
      case "pinchas" => Some((25, 10))
      case "matot" => Some((30, 2))
      case _ => None)
    case "deuteronomy" => (match parasha
      case "vaetchanan" => Some((3, 23))
      case "eikev" => Some((7, 12))
      case "reeh" => Some((11, 26))
      case "shoftim" => Some((16, 18))
      case "ki_teitzei" => Some((21, 10))
      case "nitzavim" => Some((29, 9))
      case _ => None)
    case _ => None
  }

  /** `getInitialVerse`: 1 without a parasha; the tabled first verse when
      the chapter is the one the parasha starts in; 1 otherwise. */
  function InitialVerse(book: string, chapter: int, parasha: Option<string>): (v: int)
    ensures v >= 1
    ensures (parasha.None? || parasha.value == "") ==> v == 1
    ensures v != 1 ==> parasha.Some? && (book, parasha.value, chapter, v) in Overlaps
  {
    if parasha.None? || parasha.value == "" then 1
    else match OverlapOf(book, parasha.value)
      case Some((c, first)) => if chapter == c then first else 1
      case None => 1
  }

  /** Every tabled triple gives its verse, and the chapter after it gives 1. */
  lemma InitialVerseFollowsTable(i: nat)
    requires i < |Overlaps|
    ensures InitialVerse(Overlaps[i].0, Overlaps[i].2, Some(Overlaps[i].1)) == Overlaps[i].3
    ensures InitialVerse(Overlaps[i].0, Overlaps[i].2 + 1, Some(Overlaps[i].1)) == 1
  {
    if i == 0 {
      assert OverlapOf(Overlaps[0].0, Overlaps[0].1) == Some((Overlaps[0].2, Overlaps[0].3));
    } else if i == 1 {
      assert OverlapOf(Overlaps[1].0, Overlaps[1].1) == Some((Overlaps[1].2, Overlaps[1].3));
    } else if i == 2 {
      assert OverlapOf(Overlaps[2].0, Overlaps[2].1) == Some((Overlaps[2].2, Overlaps[2].3));
    } else if i == 3 {
      assert OverlapOf(Overlaps[3].0, Overlaps[3].1) == Some((Overlaps[3].2, Overlaps[3].3));
    } else if i == 4 {
      assert OverlapOf(Overlaps[4].0, Overlaps[4].1) == Some((Overlaps[4].2, Overlaps[4].3));
    } else if i == 5 {
      assert OverlapOf(Overlaps[5].0, Overlaps[5].1) == Some((Overlaps[5].2, Overlaps[5].3));
    } else if i == 6 {
      assert OverlapOf(Overlaps[6].0, Overlaps[6].1) == Some((Overlaps[6].2, Overlaps[6].3));
    } else if i == 7 {
      assert OverlapOf(Overlaps[7].0, Overlaps[7].1) == Some((Overlaps[7].2, Overlaps[7].3));
    } else if i == 8 {
      assert OverlapOf(Overlaps[8].0, Overlaps[8].1) == Some((Overlaps[8].2, Overlaps[8].3));
    } else if i == 9 {
      assert OverlapOf(Overlaps[9].0, Overlaps[9].1) == Some((Overlaps[9].2, Overlaps[9].3));
    } else if i == 10 {
      assert OverlapOf(Overlaps[10].0, Overlaps[10].1) == Some((Overlaps[10].2, Overlaps[10].3));
    } else if i == 11 {
      assert OverlapOf(Overlaps[11].0, Overlaps[11].1) == Some((Overlaps[11].2, Overlaps[11].3));
    } else if i == 12 {
      assert OverlapOf(Overlaps[12].0, Overlaps[12].1) == Some((Overlaps[12].2, Overlaps[12].3));
    } else if i == 13 {
      assert OverlapOf(Overlaps[13].0, Overlaps[13].1) == Some((Overlaps[13].2, Overlaps[13].3));
    } else if i == 14 {
      assert OverlapOf(Overlaps[14].0, Overlaps[14].1) == Some((Overlaps[14].2, Overlaps[14].3));
    } else if i == 15 {
      assert OverlapOf(Overlaps[15].0, Overlaps[15].1) == Some((Overlaps[15].2, Overlaps[15].3));
    } else if i == 16 {
      assert OverlapOf(Overlaps[16].0, Overlaps[16].1) == Some((Overlaps[16].2, Overlaps[16].3));
    } else if i == 17 {
      assert OverlapOf(Overlaps[17].0, Overlaps[17].1) == Some((Overlaps[17].2, Overlaps[17].3));
    } else if i == 18 {
      assert OverlapOf(Overlaps[18].0, Overlaps[18].1) == Some((Overlaps[18].2, Overlaps[18].3));
    } else if i == 19 {
      assert OverlapOf(Overlaps[19].0, Overlaps[19].1) == Some((Overlaps[19].2, Overlaps[19].3));
    } else if i == 20 {
      assert OverlapOf(Overlaps[20].0, Overlaps[20].1) == Some((Overlaps[20].2, Overlaps[20].3));
    } else if i == 21 {
      assert OverlapOf(Overlaps[21].0, Overlaps[21].1) == Some((Overlaps[21].2, Overlaps[21].3));
    }
  }

  /** The table is keyed by the lower-case book id: any other book, such
      as the English name `Genesis`, starts every chapter at verse 1. */
  lemma InitialVerseNeedsBookId(book: string, chapter: int, parasha: Option<string>)
    requires !IsBookId(book)
    ensures InitialVerse(book, chapter, parasha) == 1
  {
    if parasha.Some? && parasha.value != "" {
      assert OverlapOf(book, parasha.value) == None;
    }
  }

  /** The five book ids. */
  predicate IsBookId(id: string) {
    id in ["genesis", "exodus", "leviticus", "numbers", "deuteronomy"]
  }

  /** `bookIdMap[bookEnglish] || "genesis"` in `handleNavigate`. */
  function BookIdOf(english: string): (id: string)
    ensures IsBookId(id)
    ensures english !in ["Genesis", "Exodus", "Leviticus", "Numbers", "Deuteronomy"] ==> id == "genesis"
  {
    match english
    case "Genesis" => "genesis"
    case "Exodus" => "exodus"
    case "Leviticus" => "leviticus"
    case "Numbers" => "numbers"
    case "Deuteronomy" => "deuteronomy"
    case _ => "genesis"
  }

  /** The English name `getCurrentBookMeta` falls back to when no book
      metadata is loaded, `"..."` for an unknown id. */
  function EnglishNameOf(id: string): (name: string)
    ensures !IsBookId(id) ==> name == "..."
  {
    match id
    case "genesis" => "Genesis"
    case "exodus" => "Exodus"
    case "leviticus" => "Leviticus"
    case "numbers" => "Numbers"
    case "deuteronomy" => "Deuteronomy"
    case _ => "..."
  }

  /** The page passes the English name to the navigation and maps the name
      it gets back to an id: the round trip keeps every book id, and an
      unknown id comes back as genesis. */
  lemma BookNameRoundTrip(id: string)
    ensures IsBookId(id) ==> BookIdOf(EnglishNameOf(id)) == id
    ensures !IsBookId(id) ==> BookIdOf(EnglishNameOf(id)) == "genesis"
  {
  }

  /** `list.length > 0 ? list : [1]`. */
  function OrFirst(xs: seq<int>): (r: seq<int>)
    ensures r != []
    ensures xs != [] ==> r == xs
    ensures xs == [] ==> r == [1]
  {
    if xs != [] then xs else [1]
  }

  /** An entry handed to the commentary panel. */
  datatype CommentaryItem = CommentaryItem(author: string, text: string, category: string)

  /** The commentary entries of lines 345-349: the verse file's
      commentaries if it has any object, else the verse's; a `null` text
      becomes "", the category is always "". */
  function CommentaryEntries(fileCommentaries: Option<Commentaries>, verseCommentaries: Option<Commentaries>)
    : (r: seq<CommentaryItem>)
    ensures fileCommentaries.None? && verseCommentaries.None? ==> r == []
    ensures var c := if fileCommentaries.Some? then fileCommentaries.value
                     else if verseCommentaries.Some? then verseCommentaries.value else [];
      && |r| == |c|
      && forall i :: 0 <= i < |r| ==> r[i].author == c[i].0 && r[i].text == c[i].1.GetOr("") && r[i].category == ""
  {
    var c := if fileCommentaries.Some? then fileCommentaries.value
             else if verseCommentaries.Some? then verseCommentaries.value else [];
    seq(|c|, i requires 0 <= i < |c| => CommentaryItem(c[i].0, c[i].1.GetOr(""), ""))
  }

  class ReaderPage {
    var currentBookId: string
    var currentChapterNum: int
    var currentVerseNum: int
    var currentParashaId: Option<string>
    var activeWordPosition: Option<int>
    var availableChapters: seq<int>
    var availableVerses: seq<int>

    /** The initial state: Genesis 1:1, no parasha, no active word. */
    constructor()
      ensures currentBookId == "genesis" && currentChapterNum == 1 && currentVerseNum == 1
      ensures currentParashaId.None? && activeWordPosition.None?
      ensures availableChapters == [] && availableVerses == []
    {
      currentBookId, currentChapterNum, currentVerseNum := "genesis", 1, 1;
      currentParashaId, activeWordPosition := None, None;
      availableChapters, availableVerses := [], [];
    }

    /** `handleNavigate`: a new book resets to chapter 1, verse 1 and no
        parasha; a new parasha or a new chapter starts at the chapter's
        initial verse; otherwise the request is taken as given. The active
        word is cleared in every case. */
    method HandleNavigate(bookEnglish: string, chapter: int, verse: int, parasha: Option<string>)
      modifies this`currentBookId, this`currentChapterNum, this`currentVerseNum,
               this`currentParashaId, this`activeWordPosition
      ensures currentBookId == BookIdOf(bookEnglish)
      ensures activeWordPosition.None?
      ensures BookIdOf(bookEnglish) != old(currentBookId) ==>
        currentParashaId.None? && currentChapterNum == 1 && currentVerseNum == 1
      ensures BookIdOf(bookEnglish) == old(currentBookId) ==>
        currentParashaId == parasha && currentChapterNum == chapter
      ensures BookIdOf(bookEnglish) == old(currentBookId)
              && ((parasha.Some? && parasha.value != "" && parasha != old(currentParashaId))
                  || chapter != old(currentChapterNum)) ==>
        currentVerseNum == InitialVerse(currentBookId, chapter, parasha)
      ensures BookIdOf(bookEnglish) == old(currentBookId)
              && !(parasha.Some? && parasha.value != "" && parasha != old(currentParashaId))
              && chapter == old(currentChapterNum) ==>
        currentVerseNum == verse
    {
      var bookId := BookIdOf(bookEnglish);
      if bookId != currentBookId {
        currentBookId := bookId;
        currentParashaId := None;
        currentChapterNum := 1;
        currentVerseNum := 1;
      } else if parasha.Some? && parasha.value != "" && parasha != currentParashaId {
        var initial := InitialVerse(bookId, chapter, parasha);
        currentBookId := bookId;
        currentParashaId := parasha;
        currentChapterNum := chapter;
        currentVerseNum := initial;
      } else if chapter != currentChapterNum {
        var initial := InitialVerse(bookId, chapter, parasha);
        currentBookId := bookId;
        currentParashaId := parasha;
        currentChapterNum := chapter;
        currentVerseNum := initial;
      } else {
        currentBookId := bookId;
        currentParashaId := parasha;
        currentChapterNum := chapter;
        currentVerseNum := verse;
      }
      activeWordPosition := None;
    }

    /** `handleWordToggle`: clicking the active word closes it, any other
        word becomes active. */
    method HandleWordToggle(position: int)
      modifies this`activeWordPosition
      ensures old(activeWordPosition) == Some(position) ==> activeWordPosition.None?
      ensures old(activeWordPosition) != Some(position) ==> activeWordPosition == Some(position)
    {
      if activeWordPosition == Some(position) {
        activeWordPosition := None;
      } else {
        activeWordPosition := Some(position);
      }
    }

    /** Keeps the parasha id in step with the parasha the data hook loaded
        (lines 75-79). */
    method SyncParasha(loaded: Option<Parasha>)
      modifies this`currentParashaId
      ensures loaded.Some? ==> currentParashaId == Some(loaded.value.id)
      ensures loaded.None? ==> currentParashaId == old(currentParashaId)
    {
      if loaded.Some? {
        currentParashaId := Some(loaded.value.id);
      }
    }

    /** `getNavigationChapters`. */
    function NavigationChapters(): (r: seq<int>)
      reads this
      ensures r == OrFirst(availableChapters)
    {
      OrFirst(availableChapters)
    }

    /** `getNavigationVerses`. */
    function NavigationVerses(): (r: seq<int>)
      reads this
      ensures r == OrFirst(availableVerses)
    {
      OrFirst(availableVerses)
    }
  }
}
