// The featured-titles carousel of the home screen: a rotating index over its
// titles, the lookup of the current title, and the display fallbacks.

module Hero {
  import opened Types
  import opened Seqs

  /**
   * A JavaScript number used as an index: a non-negative integer (the index
   * starts at 0, and indicators and the advance step never produce a negative
   * one), or NaN, which is what (prev + 1) % 0 gives for an empty list and
   * what NaN + 1 stays.
   */
  datatype Index = At(n: nat) | NotANumber

  /**
   * The auto-advance step: (prev + 1) % movies.length. On non-negative
   * operands JavaScript's % and Dafny's agree.
   */
  function Next(i: Index, len: nat): (r: Index)
    ensures len > 0 && i.At? && i.n < len ==> r.At? && r.n < len
    ensures len > 0 && i.At? && i.n < len - 1 ==> r == At(i.n + 1)
    ensures len > 0 && i.At? && i.n == len - 1 ==> r == At(0)
    ensures len == 0 || i.NotANumber? ==> r == NotANumber
  {
    match i
    case NotANumber => NotANumber
    case At(n) => if len == 0 then NotANumber else At((n + 1) % len)
  }

  /** k auto-advance steps. */
  function Advanced(i: Index, len: nat, k: nat): Index
  {
    if k == 0 then i else Next(Advanced(i, len, k - 1), len)
  }

  /** From position n, k < len - n steps move forward by k. */
  lemma {:induction false} AdvancedForward(n: nat, len: nat, k: nat)
    requires n + k < len
    ensures Advanced(At(n), len, k) == At(n + k)
  {
    if k > 0 {
      AdvancedForward(n, len, k - 1);
    }
  }

  /** After as many steps as there are titles the carousel is back where it started. */
  lemma AdvanceFullCycle(n: nat, len: nat)
    requires n < len
    ensures Advanced(At(n), len, len) == At(n)
  {
    // the first len - 1 - n steps reach the last title, one more wraps to 0,
    // and the remaining n steps come back to n
    AdvancedForward(n, len, len - 1 - n);
    assert Advanced(At(n), len, len - n) == At(0);
    AdvancedAfter(At(n), len, len - n, n);
    AdvancedForward(0, len, n);
  }

  /** Advancing j + k steps is advancing k steps from where j steps lead. */
  lemma {:induction false} AdvancedAfter(i: Index, len: nat, j: nat, k: nat)
    ensures Advanced(i, len, j + k) == Advanced(Advanced(i, len, j), len, k)
  {
    if k > 0 {
      AdvancedAfter(i, len, j, k - 1);
    }
  }

  /** The carousel over the featured titles. */
  class Carousel {
    const movies: seq<Movie>
    var currentIndex: Index

    /** For a non-empty list the index always designates one of its titles. */
    ghost predicate Valid()
      reads this
    {
      |movies| > 0 ==> currentIndex.At? && currentIndex.n < |movies|
    }

    constructor (movies: seq<Movie>)
      ensures this.movies == movies && currentIndex == At(0)
      ensures Valid()
    {
      this.movies := movies;
      currentIndex := At(0);
    }

    /** The interval callback. */
    method Advance()
      requires Valid()
      modifies this
      ensures currentIndex == Next(old(currentIndex), |movies|)
      ensures Valid()
    {
      match currentIndex
      case NotANumber =>
      case At(n) =>
        currentIndex := if |movies| == 0 then NotANumber else At((n + 1) % |movies|);
    }

    /** A click on indicator idx; indicators exist only for the titles of the list. */
    method SelectIndicator(idx: nat)
      requires Valid() && idx < |movies|
      modifies this
      ensures currentIndex == At(idx)
      ensures Valid()
    {
      currentIndex := At(idx);
    }

    /** movies[currentIndex], or nothing when that is undefined. */
    function Current(): (r: Option<Movie>)
      reads this
      ensures r.Some? <==> currentIndex.At? && currentIndex.n < |movies|
      ensures r.Some? ==> r.value == movies[currentIndex.n]
    {
      match currentIndex
      case At(n) => if n < |movies| then Some(movies[n]) else None
      case NotANumber => None
    }

    /** Whether indicator idx is highlighted. */
    predicate IsActive(idx: nat)
      reads this
      ensures IsActive(idx) && idx < |movies| ==> Current() == Some(movies[idx])
      ensures IsActive(idx) ==> currentIndex != NotANumber
    {
      currentIndex == At(idx)
    }
  }

  /**
   * A non-empty carousel highlights exactly one indicator, and the title at
   * that indicator is the one on screen.
   */
  lemma ExactlyOneActive(c: Carousel)
    requires c.Valid() && |c.movies| > 0
    ensures exists idx: nat :: idx < |c.movies| && c.IsActive(idx) && c.Current() == Some(c.movies[idx])
    ensures forall i: nat, j: nat :: c.IsActive(i) && c.IsActive(j) ==> i == j
  {
    var idx := c.currentIndex.n;
    assert c.IsActive(idx);
  }

  /** `value || fallback` for an optional string: absent and "" both fall back. */
  function OrString(value: Option<string>, fallback: string): (r: string)
    ensures value.Some? && value.value != "" ==> r == value.value
    ensures value.None? || value.value == "" ==> r == fallback
  {
    if value.Some? && value.value != "" then value.value else fallback
  }

  /** `value || fallback` for an optional number: absent and 0 both fall back. */
  function OrNumber(value: Option<int>, fallback: int): (r: int)
    ensures value.Some? && value.value != 0 ==> r == value.value
    ensures value.None? || value.value == 0 ==> r == fallback
  {
    if value.Some? && value.value != 0 then value.value else fallback
  }

  /** What the carousel shows for its current title. */
  datatype Slide = Slide(
    background: string,
    title: string,
    kindLabel: string,
    year: int,
    category: Option<string>,
    duration: string,
    description: string,
    inWatchlist: bool)

  /** The kind badge: "Filme" for films, "Série" for everything else, an absent kind included. */
  function KindLabel(m: Movie): (r: string)
    ensures r == "Filme" <==> m.kind == Some(Film)
    ensures r != "Filme" ==> r == "Série"
  {
    if m.kind == Some(Film) then "Filme" else "Série"
  }

  /**
   * The slide for a title: backdrop or else image, year or else 2024, duration
   * or else "2h 15m", each falling back on an absent or falsy value.
   */
  function SlideOf(m: Movie, watchlist: seq<string>): (s: Slide)
    ensures s.title == m.title && s.description == m.description && s.category == m.category
    ensures s.kindLabel == (if m.kind == Some(Film) then "Filme" else "Série")
    ensures s.inWatchlist <==> m.id in watchlist
    ensures s.background == if m.backdrop.Some? && m.backdrop.value != "" then m.backdrop.value else m.image
    ensures s.year == if m.year.Some? && m.year.value != 0 then m.year.value else 2024
    ensures s.duration == if m.duration.Some? && m.duration.value != "" then m.duration.value else "2h 15m"
  {
    Slide(OrString(m.backdrop, m.image), m.title, KindLabel(m), OrNumber(m.year, 2024),
      m.category, OrString(m.duration, "2h 15m"), m.description, m.id in watchlist)
  }

  /** The rendered carousel: nothing when there is no title at the current index. */
  function Render(c: Carousel, watchlist: seq<string>): (r: Option<Slide>)
    reads c
    ensures r.Some? <==> c.Current().Some?
    ensures r.Some? ==> r.value == SlideOf(c.Current().value, watchlist)
    ensures r.Some? ==> r.value.inWatchlist == (c.Current().value.id in watchlist)
  {
    match c.Current()
    case None => None
    case Some(m) => Some(SlideOf(m, watchlist))
  }

  /** An empty carousel never renders, however often it advances. */
  lemma EmptyNeverRenders(c: Carousel, watchlist: seq<string>)
    requires |c.movies| == 0
    ensures Render(c, watchlist) == None
    ensures Next(c.currentIndex, |c.movies|) == NotANumber
  {
  }
}
