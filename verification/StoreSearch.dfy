/** The store's message search (src/state.rs), which takes the first matches in the order they are stored and only then
    sorts them by sequence number, and what that does to bounded search. */
module StoreSearch {
  import opened Wrappers
  import opened Paging
  import Text

  predicate Sorted<T>(xs: seq<T>, seqOf: T -> int) {
    forall i, j :: 0 <= i < j < |xs| ==> seqOf(xs[i]) <= seqOf(xs[j])
  }

  /** x behind everything that is not greater. */
  function Inserted<T>(xs: seq<T>, x: T, seqOf: T -> int): seq<T> {
    if xs == [] || seqOf(xs[|xs| - 1]) <= seqOf(x) then xs + [x]
    else Inserted(xs[..|xs| - 1], x, seqOf) + [xs[|xs| - 1]]
  }

  /** sort_by_key, which is stable. */
  function SortBySeq<T>(xs: seq<T>, seqOf: T -> int): seq<T> {
    if xs == [] then [] else Inserted(SortBySeq(xs[..|xs| - 1], seqOf), xs[|xs| - 1], seqOf)
  }

  lemma LastOfInserted<T>(xs: seq<T>, x: T, seqOf: T -> int)
    ensures var ys := Inserted(xs, x, seqOf);
            |ys| > 0 && (ys[|ys| - 1] == x || (xs != [] && ys[|ys| - 1] == xs[|xs| - 1]))
  {
  }

  lemma SortedSnoc<T>(front: seq<T>, x: T, seqOf: T -> int)
    ensures Sorted(front, seqOf) && (front == [] || seqOf(front[|front| - 1]) <= seqOf(x)) ==>
            Sorted(front + [x], seqOf)
  {
  }

  lemma {:induction false} InsertedFacts<T>(xs: seq<T>, x: T, seqOf: T -> int)
    requires Sorted(xs, seqOf)
    ensures var ys := Inserted(xs, x, seqOf);
            Sorted(ys, seqOf) && multiset(ys) == multiset(xs) + multiset{x} && |ys| == |xs| + 1
  {
    if xs == [] || seqOf(xs[|xs| - 1]) <= seqOf(x) {
      SortedSnoc(xs, x, seqOf);
    } else {
      var front, last := xs[..|xs| - 1], xs[|xs| - 1];
      InsertedFacts(front, x, seqOf);
      LastOfInserted(front, x, seqOf);
      SortedSnoc(Inserted(front, x, seqOf), last, seqOf);
      assert xs == front + [last];
    }
  }

  /** The sort gives the same messages in order. */
  lemma {:induction false} SortFacts<T>(xs: seq<T>, seqOf: T -> int)
    ensures Sorted(SortBySeq(xs, seqOf), seqOf) && multiset(SortBySeq(xs, seqOf)) == multiset(xs)
    ensures |SortBySeq(xs, seqOf)| == |xs|
  {
    if xs != [] {
      var front, last := xs[..|xs| - 1], xs[|xs| - 1];
      SortFacts(front, seqOf);
      InsertedFacts(SortBySeq(front, seqOf), last, seqOf);
      assert xs == front + [last];
    }
  }

  /** What is in order already stays as it is. */
  lemma {:induction false} SortKeepsSorted<T>(xs: seq<T>, seqOf: T -> int)
    requires Sorted(xs, seqOf)
    ensures SortBySeq(xs, seqOf) == xs
  {
    if xs != [] {
      SortKeepsSorted(xs[..|xs| - 1], seqOf);
    }
  }

  // ---------------------------------------------------------------------

  /** search_messages and group_search on this store: matches are in stored order. */
  function SearchStored<T>(matches: seq<T>, query: PageQuery, seqOf: T -> int): Result<Page<T>, ApiError> {
    match BoundedSearchLimit(query)
    case Err(error) => Err(error)
    case Ok(limit) => PaginatedItems(SortBySeq(Take(matches, limit), seqOf), query)
  }

  /** The first place where the order breaks. */
  lemma {:induction false} FirstDescent<T>(xs: seq<T>, seqOf: T -> int) returns (d: nat)
    requires !Sorted(xs, seqOf)
    ensures d + 1 < |xs| && Sorted(xs[..d + 1], seqOf) && seqOf(xs[d]) > seqOf(xs[d + 1])
  {
    var front, last := xs[..|xs| - 1], xs[|xs| - 1];
    SortedSnoc(front, last, seqOf);
    assert xs == front + [last];
    if !Sorted(front, seqOf) {
      d := FirstDescent(front, seqOf);
      assert front[..d + 1] == xs[..d + 1];
    } else {
      d := |xs| - 2;
      assert xs[..d + 1] == front;
    }
  }

  /** The page of one message at the break, which looks one further, is of another message. */
  lemma DescentShows<T>(xs: seq<T>, d: nat, seqOf: T -> int)
    requires d + 1 < |xs| && Sorted(xs[..d + 1], seqOf) && seqOf(xs[d]) > seqOf(xs[d + 1])
    requires forall i, j :: 0 <= i < j < |xs| ==> xs[i] != xs[j]
    ensures var ys := SortBySeq(xs[..d + 2], seqOf); |ys| == d + 2 && ys[d] != xs[d]
  {
    var head, x := xs[..d + 1], xs[d + 1];
    assert xs[..d + 2] == head + [x] && (head + [x])[..d + 1] == head;
    SortKeepsSorted(head, seqOf);
    SortFacts(xs[..d + 2], seqOf);
    assert head[|head| - 1] == xs[d] && head[..|head| - 1] == xs[..d];
    assert SortBySeq(xs[..d + 2], seqOf) == Inserted(xs[..d], x, seqOf) + [xs[d]];
    LastOfInserted(xs[..d], x, seqOf);
  }

  /** Searching this store pages its first 5000 matches, query for query, exactly when those are stored in order of
      their sequence numbers: a message that is stored late makes some page show another message than its place. */
  lemma StoredSearchAgreesExactly<T>(matches: seq<T>, seqOf: T -> int)
    requires forall i, j :: 0 <= i < j < |matches| ==> matches[i] != matches[j]
    ensures (forall query :: SearchStored(matches, query, seqOf) == Search(matches, query)) <==>
            Sorted(Take(matches, MAX_SEARCH_WINDOW), seqOf)
  {
    var window := Take(matches, MAX_SEARCH_WINDOW);
    if Sorted(window, seqOf) {
      forall query ensures SearchStored(matches, query, seqOf) == Search(matches, query) {
        if BoundedSearchLimit(query).Ok? {
          var handed := Take(matches, BoundedSearchLimit(query).value);
          assert forall i :: 0 <= i < |handed| ==> handed[i] == window[i];
          SortKeepsSorted(handed, seqOf);
        }
      }
    } else {
      var d := FirstDescent(window, seqOf);
      DescentQuery(matches, d, seqOf);
    }
  }

  lemma DescentQuery<T>(matches: seq<T>, d: nat, seqOf: T -> int)
    requires forall i, j :: 0 <= i < j < |matches| ==> matches[i] != matches[j]
    requires var window := Take(matches, MAX_SEARCH_WINDOW);
             d + 1 < |window| && Sorted(window[..d + 1], seqOf) && seqOf(window[d]) > seqOf(window[d + 1])
    ensures var query := PageQuery(Some(1), Some(Text.ToString(d)));
            SearchStored(matches, query, seqOf) != Search(matches, query)
  {
    var query := PageQuery(Some(1), Some(Text.ToString(d)));
    LimitAt(d);
    var window := Take(matches, MAX_SEARCH_WINDOW);
    assert window[..d + 1] == matches[..d + 1];
    DescentShows(matches, d, seqOf);
    OnePage(matches[..d + 2], query, d);
    OnePage(SortBySeq(matches[..d + 2], seqOf), query, d);
  }

  lemma LimitAt(d: nat)
    requires d + 2 <= MAX_SEARCH_WINDOW
    ensures var query := PageQuery(Some(1), Some(Text.ToString(d)));
            PageOffset(query) == Ok(d) && query.Limit() == 1 && BoundedSearchLimit(query) == Ok(d + 2)
  {
    var query := PageQuery(Some(1), Some(Text.ToString(d)));
    CursorRoundTrip(query, d);
    assert query.(cursor := Some(Text.ToString(d))) == query;
  }

  lemma OnePage<T>(items: seq<T>, query: PageQuery, d: nat)
    requires PageOffset(query) == Ok(d) && query.Limit() == 1 && d < |items|
    ensures PaginatedItems(items, query).Ok? && PaginatedItems(items, query).value.items == [items[d]]
  {
  }

  // ---------------------------------------------------------------------
  // Following cursors on this store

  /** Sorting changes neither how many messages a page has nor where it leads. */
  lemma SameShape<T>(matches: seq<T>, query: PageQuery, seqOf: T -> int)
    ensures SearchStored(matches, query, seqOf).Ok? <==> Search(matches, query).Ok?
    ensures Search(matches, query).Ok? ==>
              var page := Search(matches, query).value;
              SearchStored(matches, query, seqOf).value ==
                page.(items := SearchStored(matches, query, seqOf).value.items)
  {
    if BoundedSearchLimit(query).Ok? {
      var handed := Take(matches, BoundedSearchLimit(query).value);
      SortFacts(handed, seqOf);
      SameLength(handed, SortBySeq(handed, seqOf), PageOffset(query).value, query.Limit());
    }
  }

  lemma SameLength<T>(a: seq<T>, b: seq<T>, offset: nat, limit: nat)
    requires |a| == |b|
    ensures PageAt(b, offset, limit) == PageAt(a, offset, limit).(items := PageAt(b, offset, limit).items)
  {
  }

  /** Every page a client gets that searches with query and follows each next_cursor. */
  function FollowStored<T>(matches: seq<T>, query: PageQuery, seqOf: T -> int): (pages: seq<Page<T>>)
    requires SearchStored(matches, query, seqOf).Ok?
    decreases |matches| - (SameShape(matches, query, seqOf); SearchFacts(matches, query); PageOffset(query).value)
  {
    SameShape(matches, query, seqOf);
    SearchFacts(matches, query);
    var page := SearchStored(matches, query, seqOf).value;
    if !page.hasMore then [page]
    else
      SameShape(matches, query.(cursor := page.nextCursor), seqOf);
      [page] + FollowStored(matches, query.(cursor := page.nextCursor), seqOf)
  }

  lemma {:induction false} FollowsLikeSearch<T>(matches: seq<T>, query: PageQuery, seqOf: T -> int)
    requires forall q :: SearchStored(matches, q, seqOf) == Search(matches, q)
    requires Search(matches, query).Ok? && PageOffset(query).Ok?
    ensures FollowStored(matches, query, seqOf) == FollowSearch(matches, query)
    decreases |matches| - PageOffset(query).value
  {
    SearchFacts(matches, query);
    var page := Search(matches, query).value;
    assert SearchStored(matches, query, seqOf) == Search(matches, query);
    if page.hasMore {
      FollowsLikeSearch(matches, query.(cursor := page.nextCursor), seqOf);
    }
  }

  /** The message shown at a place when one message is asked for at a time. */
  function ShownAt<T>(matches: seq<T>, offset: nat, seqOf: T -> int): T
    requires offset < |Take(matches, MAX_SEARCH_WINDOW)|
  {
    var handed := Take(matches, if offset + 2 < MAX_SEARCH_WINDOW then offset + 2 else MAX_SEARCH_WINDOW);
    SortFacts(handed, seqOf);
    SortBySeq(handed, seqOf)[offset]
  }

  lemma OneAtATime<T>(matches: seq<T>, query: PageQuery, offset: nat, seqOf: T -> int)
    requires PageOffset(query) == Ok(offset) && query.Limit() == 1 && offset < |Take(matches, MAX_SEARCH_WINDOW)|
    ensures SearchStored(matches, query, seqOf).Ok?
    ensures var page := SearchStored(matches, query, seqOf).value;
            && page.items == [ShownAt(matches, offset, seqOf)]
            && (page.hasMore <==> offset + 1 < |Take(matches, MAX_SEARCH_WINDOW)|)
            && (page.hasMore ==>
                  var next := query.(cursor := page.nextCursor);
                  PageOffset(next) == Ok(offset + 1) && next.Limit() == 1)
  {
    SearchLimit(query);
    var limit := BoundedSearchLimit(query).value;
    var handed := Take(matches, limit);
    SortFacts(handed, seqOf);
    var sorted := SortBySeq(handed, seqOf);
    PageFacts(sorted, query);
    OnePage(sorted, query, offset);
  }

  /** One page, and what is shown after it. */
  lemma ShowsNext<T>(matches: seq<T>, query: PageQuery, offset: nat, seqOf: T -> int)
    returns (next: PageQuery, rest: seq<T>)
    requires PageOffset(query) == Ok(offset) && query.Limit() == 1 && offset < |Take(matches, MAX_SEARCH_WINDOW)|
    ensures SearchStored(matches, query, seqOf).Ok?
    ensures Joined(FollowStored(matches, query, seqOf)) == [ShownAt(matches, offset, seqOf)] + rest
    ensures offset + 1 >= |Take(matches, MAX_SEARCH_WINDOW)| ==> rest == []
    ensures offset + 1 < |Take(matches, MAX_SEARCH_WINDOW)| ==>
              && PageOffset(next) == Ok(offset + 1) && next.Limit() == 1 && SearchStored(matches, next, seqOf).Ok?
              && rest == Joined(FollowStored(matches, next, seqOf))
  {
    OneAtATime(matches, query, offset, seqOf);
    var page, pages := SearchStored(matches, query, seqOf).value, FollowStored(matches, query, seqOf);
    next := query.(cursor := page.nextCursor);
    rest := Joined(pages[1..]);
    if page.hasMore {
      OneAtATime(matches, next, offset + 1, seqOf);
      assert pages == [page] + FollowStored(matches, next, seqOf);
      assert pages[1..] == FollowStored(matches, next, seqOf);
    }
  }

  function AllShown<T>(matches: seq<T>, offset: nat, seqOf: T -> int): (all: seq<T>)
    requires offset <= |Take(matches, MAX_SEARCH_WINDOW)|
    ensures |all| == |Take(matches, MAX_SEARCH_WINDOW)| - offset
  {
    seq(|Take(matches, MAX_SEARCH_WINDOW)| - offset, i requires 0 <= i < |Take(matches, MAX_SEARCH_WINDOW)| - offset =>
      ShownAt(matches, offset + i, seqOf))
  }

  lemma AllShownFirst<T>(matches: seq<T>, offset: nat, seqOf: T -> int)
    requires offset < |Take(matches, MAX_SEARCH_WINDOW)|
    ensures AllShown(matches, offset, seqOf) == [ShownAt(matches, offset, seqOf)] + AllShown(matches, offset + 1, seqOf)
  {
    var all, rest := AllShown(matches, offset, seqOf), AllShown(matches, offset + 1, seqOf);
    forall i | 0 < i < |all| ensures all[i] == rest[i - 1] {
      assert offset + i == offset + 1 + (i - 1);
    }
  }

  /** One message at a time, the pages show at each place what the look-ahead of one more puts there. */
  lemma {:induction false} OneByOne<T>(matches: seq<T>, query: PageQuery, offset: nat, seqOf: T -> int)
    requires PageOffset(query) == Ok(offset) && query.Limit() == 1
    requires offset < |Take(matches, MAX_SEARCH_WINDOW)| && SearchStored(matches, query, seqOf).Ok?
    ensures Joined(FollowStored(matches, query, seqOf)) == AllShown(matches, offset, seqOf)
    decreases |matches| - offset
  {
    var next, rest := ShowsNext(matches, query, offset, seqOf);
    AllShownFirst(matches, offset, seqOf);
    if offset + 1 < |Take(matches, MAX_SEARCH_WINDOW)| {
      OneByOne(matches, next, offset + 1, seqOf);
    }
  }

  /** Every limit pages the store's first 5000 matches completely and in stored order. */
  ghost predicate PagesCompletely<T(!new)>(matches: seq<T>, seqOf: T -> int) {
    forall limit: Option<nat> ::
      SearchStored(matches, PageQuery(limit, None), seqOf).Ok? &&
      Joined(FollowStored(matches, PageQuery(limit, None), seqOf)) == Take(matches, MAX_SEARCH_WINDOW)
  }

  /** Search completeness on the store as it is: following a search from the start yields the first 5000 matches, for
      every limit, exactly when they are stored in order of their sequence numbers. */
  lemma StoredSearchIsCompleteExactly<T(!new)>(matches: seq<T>, seqOf: T -> int)
    requires forall i, j :: 0 <= i < j < |matches| ==> matches[i] != matches[j]
    ensures PagesCompletely(matches, seqOf) <==> Sorted(Take(matches, MAX_SEARCH_WINDOW), seqOf)
  {
    var window := Take(matches, MAX_SEARCH_WINDOW);
    if Sorted(window, seqOf) {
      StoredSearchAgreesExactly(matches, seqOf);
      forall limit: Option<nat>
        ensures SearchStored(matches, PageQuery(limit, None), seqOf).Ok? &&
                Joined(FollowStored(matches, PageQuery(limit, None), seqOf)) == window
      {
        SearchCursorsAreAccepted(matches, PageQuery(limit, None));
        FollowsLikeSearch(matches, PageQuery(limit, None), seqOf);
        SearchIsComplete(matches, PageQuery(limit, None));
      }
    } else {
      var d := FirstDescent(window, seqOf);
      assert window[..d + 1] == matches[..d + 1] && matches[..d + 2] == Take(matches, d + 2);
      DescentShows(matches, d, seqOf);
      SearchCursorsAreAccepted(matches, PageQuery(Some(1), None));
      SameShape(matches, PageQuery(Some(1), None), seqOf);
      OneByOne(matches, PageQuery(Some(1), None), 0, seqOf);
      assert AllShown(matches, 0, seqOf)[d] == ShownAt(matches, d, seqOf);
    }
  }
}
