/** The expression-only parts of the landing page app/page.tsx: avatar
    initials, the duplicated review strip, the star count, and the sticky
    call to action driven by the scroll position. */
module HomePage {
  import PurposePage

  /** `s.split(sep)` for a one-character separator: empty pieces are kept,
      and there is always at least one piece. */
  function Split(s: string, sep: char): (parts: seq<string>)
    ensures |parts| >= 1
    ensures forall i :: 0 <= i < |parts| ==> sep !in parts[i]
    decreases |s|
  {
    if s == [] then [""]
    else
      var rest := Split(s[1..], sep);
      if s[0] == sep then [""] + rest
      else [[s[0]] + rest[0]] + rest[1..]
  }

  /** `parts.join(sep)`. */
  function Join(parts: seq<string>, sep: char): string
  {
    if |parts| == 0 then ""
    else if |parts| == 1 then parts[0]
    else parts[0] + [sep] + Join(parts[1..], sep)
  }

  /** Splitting loses nothing: joining the pieces gives the string back. */
  lemma {:induction false} JoinSplit(s: string, sep: char)
    ensures Join(Split(s, sep), sep) == s
    decreases |s|
  {
    if s != [] {
      var rest := Split(s[1..], sep);
      JoinSplit(s[1..], sep);
      if s[0] == sep {
        assert Split(s, sep) == [""] + rest;
        assert ([""] + rest)[1..] == rest;
      } else {
        var parts := Split(s, sep);
        assert parts == [[s[0]] + rest[0]] + rest[1..];
        if |rest| > 1 {
          assert parts[1..] == rest[1..];
          assert Join(rest, sep) == rest[0] + [sep] + Join(rest[1..], sep);
        }
        assert s == [s[0]] + s[1..];
      }
    }
  }

  /** A word without the separator is one piece. */
  lemma {:induction false} SplitWord(w: string, sep: char)
    requires sep !in w
    ensures Split(w, sep) == [w]
    decreases |w|
  {
    if w != [] {
      SplitWord(w[1..], sep);
      assert [w[0]] + w[1..] == w;
    }
  }

  /** A word followed by the separator splits off as the first piece. */
  lemma {:induction false} SplitAfterWord(w: string, sep: char, rest: string)
    requires sep !in w
    ensures Split(w + [sep] + rest, sep) == [w] + Split(rest, sep)
    decreases |w|
  {
    var s := w + [sep] + rest;
    if w == [] {
      assert s[0] == sep && s[1..] == rest;
    } else {
      assert s[0] == w[0] && s[1..] == w[1..] + [sep] + rest;
      SplitAfterWord(w[1..], sep, rest);
      assert [w[0]] + w[1..] == w;
    }
  }

  /** The pieces that are not empty, in order: the filter that drops every
      empty piece (the same `filter` as the purpose page's uncheck). */
  function NonEmpty(parts: seq<string>): (r: seq<string>)
    ensures multiset(r) == multiset(parts)["" := 0]
    ensures forall i :: 0 <= i < |r| ==> r[i] != ""
    ensures |r| <= |parts|
  {
    var r := PurposePage.Without(parts, "");
    assert forall i :: 0 <= i < |r| ==> r[i] in multiset(r);
    r
  }

  /** A single piece is kept exactly when it is not empty. */
  lemma NonEmptySingle(w: string)
    ensures NonEmpty([w]) == if w == "" then [] else [w]
  {
    assert [w][0] == w && [w][1..] == [];
  }

  /** Dropping the empty pieces keeps every other piece where it was: a
      piece between two runs of pieces stays between what is kept of them,
      unless it is empty. */
  lemma NonEmptyKeepsOrder(a: seq<string>, w: string, b: seq<string>)
    ensures NonEmpty(a + [w] + b) == NonEmpty(a) + (if w == "" then [] else [w]) + NonEmpty(b)
  {
    PurposePage.WithoutConcat(a + [w], b, "");
    PurposePage.WithoutConcat(a, [w], "");
    NonEmptySingle(w);
  }

  /** `parts.map(n => n[0]).join('')`: an empty piece has no first character
      (`undefined`), which `join` writes as nothing. */
  function FirstChars(parts: seq<string>): (r: string)
    ensures |r| == |NonEmpty(parts)|
    ensures forall i :: 0 <= i < |r| ==> r[i] == NonEmpty(parts)[i][0]
  {
    if parts == [] then ""
    else
      var rest := FirstChars(parts[1..]);
      if parts[0] == "" then
        assert NonEmpty(parts) == NonEmpty(parts[1..]);
        rest
      else
        assert NonEmpty(parts) == [parts[0]] + NonEmpty(parts[1..]);
        [parts[0][0]] + rest
  }

  /** The avatar initials: `name.split(' ').map(n => n[0]).join('')`. */
  function Initials(name: string): (r: string)
    ensures |r| == |NonEmpty(Split(name, ' '))|
    ensures forall i :: 0 <= i < |r| ==> r[i] == NonEmpty(Split(name, ' '))[i][0]
  {
    FirstChars(Split(name, ' '))
  }

  /** Two words give their two first letters. */
  lemma InitialsOfTwoWords(a: string, b: string)
    requires a != "" && b != "" && ' ' !in a && ' ' !in b
    ensures Initials(a + " " + b) == [a[0], b[0]]
  {
    SplitTwoWords(a, b);
    var parts := [a, b];
    assert parts[1..] == [b] && parts[1..][1..] == [];
  }

  lemma InitialsOfPeterKamau()
    ensures Initials("Peter Kamau") == "PK"
  {
    assert "Peter" + " " + "Kamau" == "Peter Kamau";
    InitialsOfTwoWords("Peter", "Kamau");
  }

  /** Two words joined by one space split into those two words. */
  lemma SplitTwoWords(a: string, b: string)
    requires ' ' !in a && ' ' !in b
    ensures Split(a + " " + b, ' ') == [a, b]
  {
    SplitAfterWord(a, ' ', b);
    SplitWord(b, ' ');
  }

  /** Two spaces in a row make an empty piece between the words. */
  lemma SplitDoubleSpace(a: string, b: string)
    requires ' ' !in a && ' ' !in b
    ensures Split(a + "  " + b, ' ') == [a, "", b]
  {
    assert a + "  " + b == a + [' '] + ("" + [' '] + b);
    SplitAfterWord(a, ' ', "" + [' '] + b);
    SplitAfterWord("", ' ', b);
    SplitWord(b, ' ');
    assert "" + [' '] + b == [' '] + b;
  }

  /** The empty piece of a double space is filtered out. */
  lemma NonEmptyDoubleSpace(a: string, b: string)
    requires a != "" && b != "" && ' ' !in a && ' ' !in b
    ensures NonEmpty(Split(a + "  " + b, ' ')) == [a, b]
  {
    SplitDoubleSpace(a, b);
    assert [a, "", b] == [a] + [""] + [b];
    NonEmptyKeepsOrder([a], "", [b]);
    NonEmptySingle(a);
    NonEmptySingle(b);
  }

  /** An empty piece between two pieces contributes no first character. */
  lemma FirstCharsSkipEmpty(a: string, b: string)
    requires a != "" && b != ""
    ensures FirstChars([a, "", b]) == [a[0], b[0]]
  {
    var pieces := [a, "", b];
    assert pieces[1..] == ["", b] && pieces[1..][1..] == [b] && [b][1..] == [];
    assert FirstChars([b]) == [b[0]];
  }

  /** An empty piece between two words adds no initial. */
  lemma InitialsSkipEmptyPiece(a: string, b: string)
    requires a != "" && b != "" && ' ' !in a && ' ' !in b
    ensures Initials(a + "  " + b) == [a[0], b[0]]
  {
    SplitDoubleSpace(a, b);
    FirstCharsSkipEmpty(a, b);
  }

  /** Repeated spaces make empty pieces, which add no initial. */
  lemma InitialsSkipEmptyPieces()
    ensures Initials("Ann  Lee") == "AL"
  {
    assert "Ann" + "  " + "Lee" == "Ann  Lee";
    InitialsSkipEmptyPiece("Ann", "Lee");
  }

  datatype Review = Review(name: string, location: string, rating: int)

  /** The fifteen reviews of the testimonial strip (their texts are not modelled). */
  const Reviews: seq<Review> := [
    Review("Peter Kamau", "Nairobi, Kenya", 5),
    Review("Grace Wanjiru", "Mombasa, Kenya", 5),
    Review("John Ochieng", "Kisumu, Kenya", 5),
    Review("Mary Akinyi", "Nairobi, Kenya", 5),
    Review("David Mwangi", "Nakuru, Kenya", 5),
    Review("James Wilson", "USA", 5),
    Review("Sarah Johnson", "UK", 5),
    Review("Michael Chen", "Singapore", 5),
    Review("Emma Thompson", "Canada", 5),
    Review("Ahmed Hassan", "UAE", 5),
    Review("Sophie Anderson", "Australia", 5),
    Review("Raj Patel", "India", 5),
    Review("William Davis", "Canada", 5),
    Review("Thandiwe Nkosi", "South Africa", 5),
    Review("Thomas White", "USA", 5)
  ]

  /** `[...Array(count)].flatMap(() => items)`. */
  function Repeated<T>(count: nat, items: seq<T>): (r: seq<T>)
    ensures |r| == count * |items|
    ensures forall i :: 0 <= i < |r| && i < |items| ==> r[i] == items[i]
  {
    if count == 0 then [] else items + Repeated(count - 1, items)
  }

  /** The rendered strip: the fifteen reviews twice over, thirty cards. */
  lemma RenderedReviews()
    ensures Repeated(2, Reviews) == Reviews + Reviews
    ensures |Repeated(2, Reviews)| == 30
  {
    assert Repeated(0, Reviews) == [];
    assert Repeated(1, Reviews) == Reviews;
  }

  /** `Array.from({ length: rating })`: one star per unit of the rating, none
      for a negative one. */
  function Stars(rating: int): (n: nat)
    ensures rating >= 0 ==> n == rating
    ensures rating < 0 ==> n == 0
  {
    if rating < 0 then 0 else rating
  }

  /** Every card of the strip shows five stars. */
  lemma EveryCardFiveStars()
    ensures forall i :: 0 <= i < |Reviews| ==> Stars(Reviews[i].rating) == 5
  {
  }

  /** The page's `showStickyCta` state, set by the scroll handler. */
  class HomePage {
    var showStickyCta: bool

    constructor ()
      ensures !showStickyCta
    {
      showStickyCta := false;
    }

    /** `handleScroll`: the sticky call to action shows past 600 pixels. */
    method HandleScroll(scrollY: real)
      modifies this
      ensures showStickyCta <==> scrollY > 600.0
    {
      showStickyCta := scrollY > 600.0;
    }
  }
}
