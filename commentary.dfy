/** The pure helpers of the commentary panel, `src/components/Commentary.tsx`
    and its copy `src/components/CommentaryNew.tsx` (lines 1-79 of the two
    are the same): card construction with truncated previews, the
    normalised author key, and the colour and display-name lookups. */
module Commentary {
  import opened Text
  import opened Reader

  /** Longest preview kept before "..." is appended. */
  const PreviewLength: nat := 150

  /** A commentary item with its card id and preview text. */
  datatype Card = Card(author: string, text: string, category: string, id: string, shortText: string)

  /** What the panel shows: the placeholder, or one card per item. */
  datatype Panel = Placeholder | Cards(count: nat, cards: seq<Card>)

  /** The preview: the first 150 characters and "..." when the text is
      longer, else the text itself. */
  function ShortText(text: string): (r: string)
    ensures |text| <= PreviewLength ==> r == text
    ensures |text| > PreviewLength ==>
      |r| == PreviewLength + 3 && StartsWith(text, r[..PreviewLength]) && EndsWith(r, "...")
    ensures |r| <= PreviewLength + 3
  {
    if |text| > PreviewLength then text[..PreviewLength] + "..." else text
  }

  /** `commentary-${index}`. */
  function CardId(index: nat): (id: string)
    ensures StartsWith(id, "commentary-")
  {
    "commentary-" + NatToString(index)
  }

  /** Different positions get different ids. */
  lemma CardIdInjective(i: nat, j: nat)
    requires CardId(i) == CardId(j)
    ensures i == j
  {
    var p := "commentary-";
    assert NatToString(i) == CardId(i)[|p|..];
    assert NatToString(j) == CardId(j)[|p|..];
    NatToStringInjective(i, j);
  }

  /** The cards of lines 20-24: one per item, in order, keeping the item's
      fields and adding the id and preview. */
  function MakeCards(items: seq<CommentaryItem>): (r: seq<Card>)
    ensures |r| == |items|
    ensures forall i :: 0 <= i < |r| ==>
      && r[i].author == items[i].author
      && r[i].text == items[i].text
      && r[i].category == items[i].category
      && r[i].id == CardId(i)
      && r[i].shortText == ShortText(items[i].text)
  {
    seq(|items|, i requires 0 <= i < |items| =>
      Card(items[i].author, items[i].text, items[i].category, CardId(i), ShortText(items[i].text)))
  }

  /** No two cards share a key. */
  lemma CardIdsDistinct(items: seq<CommentaryItem>, i: nat, j: nat)
    requires i < |items| && j < |items| && i != j
    ensures MakeCards(items)[i].id != MakeCards(items)[j].id
  {
    if CardId(i) == CardId(j) {
      CardIdInjective(i, j);
    }
  }

  /** The lookup key: lower-cased, then the first space and the first
      hyphen each replaced by '_'. */
  function AuthorKey(author: string): (k: string)
    ensures |k| == |author|
  {
    ReplaceFirst(ReplaceFirst(ToLowerAscii(author), ' ', '_'), '-', '_')
  }

  /** The colour table of lines 28-38. */
  const Colours: map<string, string> := map[
    "rashi" := "blue", "ramban" := "green", "onkelos" := "purple",
    "ibn_ezra" := "orange", "sforno" := "red", "or_hachaim" := "teal",
    "kli_yakar" := "indigo", "ralbag" := "pink", "abravanel" := "yellow"]

  /** The display-name table of lines 45-55. */
  const DisplayNames: map<string, string> := map[
    "rashi" := "Раши", "ramban" := "Рамбан", "onkelos" := "Онкелос",
    "ibn_ezra" := "Ибн Эзра", "sforno" := "Сфорно", "or_hachaim" := "Ор ха-Хаим",
    "kli_yakar" := "Кли Якар", "ralbag" := "Ральбаг", "abravanel" := "Абраванель"]

  /** `getAuthorColor`: the tabled colour, else "gray" (every tabled colour
      is a non-empty string, so `||` falls back only on a missing key). */
  function AuthorColour(author: string): (c: string)
    ensures AuthorKey(author) in Colours ==> c == Colours[AuthorKey(author)] && c != "gray"
    ensures AuthorKey(author) !in Colours ==> c == "gray"
  {
    var key := AuthorKey(author);
    if key in Colours && Colours[key] != "" then Colours[key] else "gray"
  }

  /** `getAuthorDisplayName`: the tabled name, else the author as given. */
  function AuthorDisplayName(author: string): (n: string)
    ensures AuthorKey(author) in DisplayNames ==> n == DisplayNames[AuthorKey(author)]
    ensures AuthorKey(author) !in DisplayNames ==> n == author
  {
    var key := AuthorKey(author);
    if key in DisplayNames && DisplayNames[key] != "" then DisplayNames[key] else author
  }

  /** The two tables know the same authors: an author is shown in gray
      exactly when its name is shown untranslated by the table. */
  lemma TablesAgree(author: string)
    ensures AuthorColour(author) == "gray" <==> AuthorKey(author) !in DisplayNames
  {
    assert Colours.Keys == DisplayNames.Keys;
  }

  /** Lower-casing the author first changes neither colour nor name. */
  lemma {:induction false} LookupIgnoresCase(author: string)
    ensures AuthorKey(ToLowerAscii(author)) == AuthorKey(author)
    ensures AuthorColour(ToLowerAscii(author)) == AuthorColour(author)
    ensures AuthorKey(author) in DisplayNames ==>
      AuthorDisplayName(ToLowerAscii(author)) == AuthorDisplayName(author)
  {
    var l := ToLowerAscii(author);
    assert ToLowerAscii(l) == l by {
      forall i | 0 <= i < |l|
        ensures ToLowerAscii(l)[i] == l[i]
      {
        assert LowerChar(LowerChar(author[i])) == LowerChar(author[i]);
      }
    }
  }

  /** Replacing the first `c` of `a + [c] + b`, where `a` holds no `c`. */
  lemma {:induction false} ReplaceFirstAfter(a: string, b: string, c: char, d: char)
    requires c !in a
    ensures ReplaceFirst(a + [c] + b, c, d) == a + [d] + b
  {
    if a != [] {
      ReplaceFirstAfter(a[1..], b, c, d);
      assert (a + [c] + b)[1..] == a[1..] + [c] + b;
      assert [a[0]] + (a[1..] + [d] + b) == a + [d] + b;
    }
  }

  /** Lower-casing leaves a string without capitals as it is. */
  lemma NoCapitals(s: string)
    requires forall i :: 0 <= i < |s| ==> !('A' <= s[i] <= 'Z')
    ensures ToLowerAscii(s) == s
  {
  }

  /** Lower-casing distributes over concatenation. */
  lemma LowerConcat(a: string, b: string)
    ensures ToLowerAscii(a + b) == ToLowerAscii(a) + ToLowerAscii(b)
  {
    var l := ToLowerAscii(a + b);
    var r := ToLowerAscii(a) + ToLowerAscii(b);
    assert forall i :: 0 <= i < |l| ==> l[i] == r[i] by {
      forall i | 0 <= i < |l| ensures l[i] == r[i] {
        if i < |a| { assert (a + b)[i] == a[i]; } else { assert (a + b)[i] == b[i - |a|]; }
      }
    }
  }

  /** Lower-casing creates no space or hyphen and removes none. */
  lemma LowerKeepsSeparators(s: string, c: char)
    requires c == ' ' || c == '-'
    ensures c in ToLowerAscii(s) <==> c in s
  {
    var l := ToLowerAscii(s);
    if c in s {
      var i :| 0 <= i < |s| && s[i] == c;
      assert l[i] == c;
    }
    if c in l {
      var i :| 0 <= i < |l| && l[i] == c;
      assert s[i] == c;
    }
  }

  /** Only the first space becomes '_': a name `a b` whose first part has
      no space or hyphen keys as `a` lowered, '_', then `b` lowered with
      only its first hyphen replaced (its spaces stay). */
  lemma AuthorKeyFirstSpace(a: string, b: string)
    requires ' ' !in a && '-' !in a
    ensures AuthorKey(a + [' '] + b) == ToLowerAscii(a) + ['_'] + ReplaceFirst(ToLowerAscii(b), '-', '_')
  {
    var la := ToLowerAscii(a);
    var lb := ToLowerAscii(b);
    LowerConcat(a + [' '], b);
    LowerConcat(a, [' ']);
    assert ToLowerAscii([' ']) == [' '];
    assert ToLowerAscii(a + [' '] + b) == la + [' '] + lb;
    LowerKeepsSeparators(a, ' ');
    LowerKeepsSeparators(a, '-');
    ReplaceFirstAfter(la, lb, ' ', '_');
    if '-' in lb {
      HyphenAfterPrefix(la + ['_'], lb);
    } else {
      ReplaceFirstAbsent(la + ['_'] + lb, '-', '_');
      ReplaceFirstAbsent(lb, '-', '_');
      assert la + ['_'] + lb == la + ['_'] + ReplaceFirst(lb, '-', '_');
    }
  }

  /** The first hyphen of `p + q`, where `p` holds none, is `q`'s first. */
  lemma {:induction false} HyphenAfterPrefix(p: string, q: string)
    requires '-' !in p
    ensures ReplaceFirst(p + q, '-', '_') == p + ReplaceFirst(q, '-', '_')
  {
    if p != [] {
      assert (p + q)[1..] == p[1..] + q;
      HyphenAfterPrefix(p[1..], q);
      assert [p[0]] + (p[1..] + ReplaceFirst(q, '-', '_')) == p + ReplaceFirst(q, '-', '_');
    } else {
      assert p + q == q;
    }
  }

  /** A hyphenated name `a-b` with no space at all and no hyphen in `a`
      keys as `a` lowered, '_', then `b` lowered. */
  lemma AuthorKeyHyphen(a: string, b: string)
    requires ' ' !in a && ' ' !in b && '-' !in a
    ensures AuthorKey(a + ['-'] + b) == ToLowerAscii(a) + ['_'] + ToLowerAscii(b)
  {
    var la := ToLowerAscii(a);
    var lb := ToLowerAscii(b);
    LowerConcat(a + ['-'], b);
    LowerConcat(a, ['-']);
    assert ToLowerAscii(['-']) == ['-'];
    assert ToLowerAscii(a + ['-'] + b) == la + ['-'] + lb;
    LowerKeepsSeparators(a, ' ');
    LowerKeepsSeparators(b, ' ');
    LowerKeepsSeparators(a, '-');
    assert ' ' !in la + ['-'] + lb;
    ReplaceFirstAbsent(la + ['-'] + lb, ' ', '_');
    ReplaceFirstAfter(la, lb, '-', '_');
  }

  /** Every tabled key is its own lookup key, so it finds its colour and
      its display name. */
  lemma TableKeysLookUp(k: string)
    requires k in Colours
    ensures AuthorKey(k) == k
    ensures AuthorColour(k) == Colours[k] && AuthorDisplayName(k) == DisplayNames[k]
  {
    assert forall i :: 0 <= i < |k| ==> 'a' <= k[i] <= 'z' || k[i] == '_';
    NoCapitals(k);
    ReplaceFirstAbsent(k, ' ', '_');
    ReplaceFirstAbsent(k, '-', '_');
    assert Colours.Keys == DisplayNames.Keys;
  }

  /** Lines 61-78 and the grid below: the placeholder for an empty list,
      else a count badge and the cards. */
  function PanelOf(items: seq<CommentaryItem>): (p: Panel)
    ensures p.Placeholder? <==> |items| == 0
    ensures p.Cards? ==> p.count == |items| == |p.cards| && p.cards == MakeCards(items)
  {
    if |items| == 0 then Placeholder else Cards(|items|, MakeCards(items))
  }
}
