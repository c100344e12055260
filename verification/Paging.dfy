/** Cursor paging and bounded search (src/routes.rs: paginated_items, page_offset, bounded_search_limit;
    src/models.rs: PageQuery::limit). */
module Paging {
  import opened Wrappers
  import opened Text

  const MAX_USIZE: nat := 0xFFFF_FFFF_FFFF_FFFF
  const MAX_SEARCH_WINDOW: nat := 5000

  datatype PageQuery = PageQuery(limit: Option<nat>, cursor: Option<string>) {
    function Limit(): nat {
      var wanted := limit.GetOr(50);
      if wanted < 1 then 1 else if wanted > 500 then 500 else wanted
    }
  }

  datatype ApiError = BadRequest(message: string)

  datatype Page<T> = Page(items: seq<T>, nextCursor: Option<string>, hasMore: bool, total: nat)

  function SaturatingAdd(a: nat, b: nat): nat {
    if a + b > MAX_USIZE then MAX_USIZE else a + b
  }

  // ---------------------------------------------------------------------
  // The decimal text of a usize

  /** The digit loop of usize::from_str: read digits are worth so much, and overflow is checked at every step. */
  function ParseDigits(s: string, worth: nat): Option<nat> {
    if s == "" then Some(worth)
    else if !IsDigit(s[0]) then None
    else
      var next := 10 * worth + DigitValue(s[0]);
      if next > MAX_USIZE then None else ParseDigits(s[1..], next)
  }

  /** str::parse::<usize>: one leading plus sign is allowed, a minus sign is not. */
  function ParseUsize(s: string): Option<nat> {
    if s == "" then None
    else if s[0] == '+' && |s| > 1 then ParseDigits(s[1..], 0)
    else ParseDigits(s, 0)
  }

  /** The digit loop fails exactly on a foreign character or on a number too large. */
  lemma {:induction false} DigitLoopIsExact(done: string, rest: string)
    requires AllDigits(done) && Spelled(done) <= MAX_USIZE
    ensures AllDigits(done + rest) <==> AllDigits(rest)
    ensures ParseDigits(rest, Spelled(done)) ==
            if AllDigits(rest) && Spelled(done + rest) <= MAX_USIZE then Some(Spelled(done + rest)) else None
    decreases |rest|
  {
    assert forall i :: 0 <= i < |rest| ==> (done + rest)[|done| + i] == rest[i];
    if rest == "" {
      assert done + rest == done;
    } else if IsDigit(rest[0]) {
      var more := done + [rest[0]];
      assert more[..|done|] == done;
      assert more + rest[1..] == done + rest;
      assert AllDigits(rest) <==> AllDigits(rest[1..]) by {
        assert forall i :: 1 <= i < |rest| ==> rest[i] == rest[1..][i - 1];
      }
      if Spelled(more) <= MAX_USIZE {
        DigitLoopIsExact(more, rest[1..]);
      } else if AllDigits(rest) {
        SpelledGrows(more, rest[1..]);
      }
    }
  }

  lemma {:induction false} SpelledGrows(s: string, t: string)
    requires AllDigits(s) && AllDigits(t)
    ensures AllDigits(s + t) && Spelled(s + t) >= Spelled(s)
  {
    if t == "" {
      assert s + t == s;
    } else {
      SpelledGrows(s, t[..|t| - 1]);
      assert (s + t)[..|s + t| - 1] == s + t[..|t| - 1];
    }
  }

  /** A cursor is accepted exactly when it is digits, after an optional plus sign, that spell a usize. */
  predicate SpellsUsize(s: string) {
    var digits := if s != "" && s[0] == '+' then s[1..] else s;
    digits != "" && AllDigits(digits) && Spelled(digits) <= MAX_USIZE
  }

  lemma ParseIsExact(s: string)
    ensures ParseUsize(s).Some? <==> SpellsUsize(s)
    ensures SpellsUsize(s) ==> ParseUsize(s) == Some(Spelled(if s[0] == '+' then s[1..] else s))
  {
    if s != "" {
      var digits := if s[0] == '+' && |s| > 1 then s[1..] else s;
      DigitLoopIsExact("", digits);
      assert "" + digits == digits;
    }
  }

  // ---------------------------------------------------------------------
  // The three functions of src/routes.rs

  function PageOffset(query: PageQuery): Result<nat, ApiError> {
    var cursor := if query.cursor.Some? then Trim(query.cursor.value) else "";
    if cursor == "" then Ok(0)
    else
      match ParseUsize(cursor)
      case Some(offset) => Ok(offset)
      case None => Err(BadRequest("cursor must be a non-negative offset"))
  }

  function Skip<T>(items: seq<T>, n: nat): seq<T> {
    if n <= |items| then items[n..] else []
  }

  function Take<T>(items: seq<T>, n: nat): seq<T> {
    if n <= |items| then items[..n] else items
  }

  function PaginatedItems<T>(items: seq<T>, query: PageQuery): Result<Page<T>, ApiError> {
    match PageOffset(query)
    case Err(error) => Err(error)
    case Ok(offset) => Ok(PageAt(items, offset, query.Limit()))
  }

  function PageAt<T>(items: seq<T>, offset: nat, limit: nat): Page<T> {
    var page := Take(Skip(items, offset), limit);
    var nextIndex := SaturatingAdd(offset, |page|);
    var hasMore := nextIndex < |items|;
    Page(page, if hasMore then Some(ToString(nextIndex)) else None, hasMore, |items|)
  }

  function BoundedSearchLimit(query: PageQuery): Result<nat, ApiError> {
    match PageOffset(query)
    case Err(error) => Err(error)
    case Ok(offset) =>
      if offset >= MAX_SEARCH_WINDOW then Err(BadRequest("cursor must be below 5000 for search"))
      else
        var wanted := SaturatingAdd(SaturatingAdd(offset, query.Limit()), 1);
        Ok(if wanted < MAX_SEARCH_WINDOW then wanted else MAX_SEARCH_WINDOW)
  }

  /** search_messages and group_search: matches is every match in order, of which the store hands over the first few. */
  function Search<T>(matches: seq<T>, query: PageQuery): Result<Page<T>, ApiError> {
    match BoundedSearchLimit(query)
    case Err(error) => Err(error)
    case Ok(limit) => PaginatedItems(Take(matches, limit), query)
  }

  // ---------------------------------------------------------------------
  // Following cursors

  /** The cursor of a page leads back to the index it was made from. */
  lemma CursorRoundTrip(query: PageQuery, index: nat)
    requires index <= MAX_USIZE
    ensures PageOffset(query.(cursor := Some(ToString(index)))) == Ok(index)
  {
    var s := ToString(index);
    assert IsDigit(s[0]) && IsDigit(s[|s| - 1]);
    assert Trim(s) == s;
    ParseIsExact(s);
  }

  /** A page starts at the offset and is full unless the list ends. */
  lemma PageAtFacts<T>(items: seq<T>, offset: nat, limit: nat)
    requires |items| <= MAX_USIZE && limit >= 1
    ensures var page := PageAt(items, offset, limit);
            && page.items + Skip(items, offset + |page.items|) == Skip(items, offset)
            && |page.items| <= limit
            && (page.hasMore <==> offset + limit < |items|)
            && (offset < |items| ==> page.items != [])
            && (page.hasMore ==> |page.items| == limit && page.nextCursor == Some(ToString(offset + limit)))
            && (!page.hasMore ==> page.items == Skip(items, offset))
  {
  }

  /** A page's cursor leads to the rest. */
  lemma PageFacts<T>(items: seq<T>, query: PageQuery)
    requires |items| <= MAX_USIZE && PageOffset(query).Ok?
    ensures var offset := PageOffset(query).value;
            var page := PaginatedItems(items, query).value;
            && page == PageAt(items, offset, query.Limit())
            && (page.hasMore <==> offset + query.Limit() < |items|)
            && (page.hasMore ==>
                  var next := query.(cursor := page.nextCursor);
                  PageOffset(next) == Ok(offset + query.Limit()) && next.Limit() == query.Limit())
  {
    var offset := PageOffset(query).value;
    PageAtFacts(items, offset, query.Limit());
    if PageAt(items, offset, query.Limit()).hasMore {
      CursorRoundTrip(query, offset + query.Limit());
    }
  }

  /** A page holds what was asked for: up to the limit, 50 by default, 1 at least and 500 at most, of the items from the
      offset on, and it knows how many there are in all. */
  lemma PageHoldsWhatIsAsked<T>(items: seq<T>, query: PageQuery, offset: nat, page: Page<T>)
    requires |items| <= MAX_USIZE && offset <= |items|
    requires PageOffset(query) == Ok(offset) && PaginatedItems(items, query) == Ok(page)
    ensures page.items <= items[offset..] && page.total == |items|
    ensures page.hasMore <==> |page.items| < |items| - offset
    ensures query.limit.None? ==> Full(page, items, offset, 50)
    ensures query.limit.Some? && 1 <= query.limit.value <= 500 ==> Full(page, items, offset, query.limit.value)
    ensures query.limit == Some(0) ==> Full(page, items, offset, 1)
    ensures query.limit.Some? && query.limit.value > 500 ==> Full(page, items, offset, 500)
  {
    assert Skip(items, offset) == items[offset..];
  }

  predicate Full<T>(page: Page<T>, items: seq<T>, offset: nat, n: nat) {
    |page.items| == if |items| < offset + n then |items| - offset else n
  }

  /** Without a cursor, or with a blank one, paging starts at the beginning; a cursor that spells no usize is
      refused. */
  lemma WhereAPageStarts(query: PageQuery)
    ensures query.cursor.None? || (forall i :: 0 <= i < |query.cursor.value| ==> IsSpace(query.cursor.value[i])) ==>
              PageOffset(query) == Ok(0)
    ensures PageOffset(query).Err? <==>
              query.cursor.Some? && Trim(query.cursor.value) != "" && !SpellsUsize(Trim(query.cursor.value))
  {
    if query.cursor.Some? {
      ParseIsExact(Trim(query.cursor.value));
    }
  }

  /** Every page a client gets that asks for query and then for each next_cursor in turn. */
  function Follow<T>(items: seq<T>, query: PageQuery): (pages: seq<Page<T>>)
    requires |items| <= MAX_USIZE && PageOffset(query).Ok?
    decreases |items| - PageOffset(query).value
  {
    var page := PaginatedItems(items, query).value;
    if !page.hasMore then [page]
    else
      PageFacts(items, query);
      [page] + Follow(items, query.(cursor := page.nextCursor))
  }

  function Joined<T>(pages: seq<Page<T>>): seq<T> {
    if pages == [] then [] else pages[0].items + Joined(pages[1..])
  }

  /** What the pages show of a list: limit items at a time. */
  function Slices<T>(rest: seq<T>, limit: nat): seq<seq<T>>
    requires limit >= 1
  {
    if |rest| <= limit then [rest] else [rest[..limit]] + Slices(rest[limit..], limit)
  }

  function Concat<T>(parts: seq<seq<T>>): seq<T> {
    if parts == [] then [] else parts[0] + Concat(parts[1..])
  }

  lemma ConcatFirst<T>(first: seq<T>, parts: seq<seq<T>>)
    ensures Concat([first] + parts) == first + Concat(parts)
  {
    assert ([first] + parts)[1..] == parts;
  }

  lemma {:induction false} SlicesConcat<T>(rest: seq<T>, limit: nat)
    requires limit >= 1
    ensures Concat(Slices(rest, limit)) == rest
  {
    if |rest| <= limit {
      assert Concat([rest]) == rest + Concat([rest][1..]);
    } else {
      SlicesConcat(rest[limit..], limit);
      ConcatFirst(rest[..limit], Slices(rest[limit..], limit));
    }
  }

  lemma {:induction false} SlicesAreFull<T>(rest: seq<T>, limit: nat)
    requires limit >= 1
    ensures var slices := Slices(rest, limit);
            && |slices| > 0 && (forall i :: 0 <= i < |slices| - 1 ==> |slices[i]| == limit)
            && |slices[|slices| - 1]| <= limit && (rest != [] ==> slices[|slices| - 1] != [])
  {
    if |rest| > limit {
      SlicesAreFull(rest[limit..], limit);
    }
  }

  /** The pages show these slices, and all but the last say that there is more. */
  ghost predicate Shows<T>(pages: seq<Page<T>>, slices: seq<seq<T>>) {
    && |pages| == |slices|
    && forall i :: 0 <= i < |pages| ==> pages[i].items == slices[i] && (pages[i].hasMore <==> i < |pages| - 1)
  }

  lemma ShowsFirst<T>(page: Page<T>, pages: seq<Page<T>>, slice: seq<T>, slices: seq<seq<T>>)
    requires page.items == slice && page.hasMore && Shows(pages, slices) && pages != []
    ensures Shows([page] + pages, [slice] + slices)
  {
  }

  /** rest is what the list holds from the query's offset on. */
  ghost predicate From<T>(items: seq<T>, query: PageQuery, rest: seq<T>) {
    PageOffset(query).Ok? && rest == Skip(items, PageOffset(query).value)
  }

  /** The pages from a query on: its page, and the pages after its cursor. */
  lemma FollowNext<T>(items: seq<T>, query: PageQuery, rest: seq<T>)
    returns (page: Page<T>, next: PageQuery, pages: seq<Page<T>>)
    requires |items| <= MAX_USIZE && From(items, query, rest)
    ensures page.hasMore <==> |rest| > query.Limit()
    ensures !page.hasMore ==> page.items == rest && Follow(items, query) == [page]
    ensures page.hasMore ==>
              && page.items == rest[..query.Limit()] && next.Limit() == query.Limit()
              && From(items, next, rest[query.Limit()..]) && pages == Follow(items, next)
              && Follow(items, query) == [page] + pages
  {
    page := PaginatedItems(items, query).value;
    next := query.(cursor := page.nextCursor);
    PageFacts(items, query);
    PageAtFacts(items, PageOffset(query).value, query.Limit());
    pages := if page.hasMore then Follow(items, next) else [];
  }

  lemma {:induction false} FollowShowsSlices<T>(items: seq<T>, query: PageQuery, rest: seq<T>)
    requires |items| <= MAX_USIZE && From(items, query, rest)
    ensures Shows(Follow(items, query), Slices(rest, query.Limit()))
    decreases |rest|
  {
    var limit := query.Limit();
    var page, next, pages := FollowNext(items, query, rest);
    if page.hasMore {
      FollowShowsSlices(items, next, rest[limit..]);
      ShowsFirst(page, pages, rest[..limit], Slices(rest[limit..], limit));
    }
  }

  lemma {:induction false} JoinedIsConcat<T>(pages: seq<Page<T>>, slices: seq<seq<T>>)
    requires |pages| == |slices| && forall i :: 0 <= i < |pages| ==> pages[i].items == slices[i]
    ensures Joined(pages) == Concat(slices)
  {
    if pages != [] {
      JoinedIsConcat(pages[1..], slices[1..]);
    }
  }

  predicate FullButLast<T>(pages: seq<Page<T>>, limit: nat) {
    && (forall i :: 0 <= i < |pages| - 1 ==> |pages[i].items| == limit && pages[i].hasMore)
    && |pages| > 0 && !pages[|pages| - 1].hasMore && |pages[|pages| - 1].items| <= limit
  }

  /** From any offset the pages are exactly the rest of the list, each but the last is full, and there are no more of
      them than it takes. */
  lemma FollowIsComplete<T>(items: seq<T>, query: PageQuery)
    requires |items| <= MAX_USIZE && PageOffset(query).Ok?
    ensures var pages := Follow(items, query);
            && Joined(pages) == Skip(items, PageOffset(query).value)
            && FullButLast(pages, query.Limit())
            && (PageOffset(query).value < |items| ==> pages[|pages| - 1].items != [])
  {
    var rest, limit := Skip(items, PageOffset(query).value), query.Limit();
    FollowShowsSlices(items, query, rest);
    JoinedIsConcat(Follow(items, query), Slices(rest, limit));
    SlicesConcat(rest, limit);
    SlicesAreFull(rest, limit);
  }

  /** Paging from the start gives back the whole list, whatever limit is asked for. */
  lemma PagingIsComplete<T>(items: seq<T>, limit: Option<nat>)
    requires |items| <= MAX_USIZE
    ensures Joined(Follow(items, PageQuery(limit, None))) == items
  {
    FollowIsComplete(items, PageQuery(limit, None));
  }

  // ---------------------------------------------------------------------
  // Bounded search

  /** Looking one match further than the page ends shows the same page as the whole window, with a smaller total. */
  lemma LookAheadIsEnough<T>(matches: seq<T>, offset: nat, limit: nat)
    requires offset < MAX_SEARCH_WINDOW && 1 <= limit <= 500
    ensures var reach := offset + limit + 1;
            var window, handed := Take(matches, MAX_SEARCH_WINDOW),
              Take(matches, if reach < MAX_SEARCH_WINDOW then reach else MAX_SEARCH_WINDOW);
            && |handed| == (if reach < |window| then reach else |window|)
            && PageAt(handed, offset, limit) == PageAt(window, offset, limit).(total := |handed|)
  {
    var reach := offset + limit + 1;
    var window, handed := Take(matches, MAX_SEARCH_WINDOW),
      Take(matches, if reach < MAX_SEARCH_WINDOW then reach else MAX_SEARCH_WINDOW);
    assert Take(Skip(handed, offset), limit) == Take(Skip(window, offset), limit);
  }

  lemma SearchLimit(query: PageQuery)
    requires PageOffset(query).Ok? && PageOffset(query).value < MAX_SEARCH_WINDOW
    ensures var reach := PageOffset(query).value + query.Limit() + 1;
            BoundedSearchLimit(query) == Ok(if reach < MAX_SEARCH_WINDOW then reach else MAX_SEARCH_WINDOW)
  {
  }

  /** A search page is the page of the first 5000 matches, except for its total. The total is that of the window
      exactly when the page's look-ahead reaches the end of the window; otherwise it is short. */
  lemma SearchAgreesWithWindow<T>(matches: seq<T>, query: PageQuery)
    requires PageOffset(query).Ok? && PageOffset(query).value < MAX_SEARCH_WINDOW
    ensures var window := Take(matches, MAX_SEARCH_WINDOW);
            var reach := PageOffset(query).value + query.Limit() + 1;
            var wanted := PaginatedItems(window, query).value;
            && Search(matches, query).Ok?
            && var got := Search(matches, query).value;
               && got == wanted.(total := got.total)
               && got.total == (if reach < |window| then reach else |window|)
               && (got.total == wanted.total <==> |window| <= reach)
  {
    SearchLimit(query);
    LookAheadIsEnough(matches, PageOffset(query).value, query.Limit());
  }

  /** Search refuses exactly what page_offset refuses and every cursor at or past the window, and it never hands out
      a cursor that it then refuses. */
  lemma SearchCursorsAreAccepted<T>(matches: seq<T>, query: PageQuery)
    ensures Search(matches, query).Ok? <==> PageOffset(query).Ok? && PageOffset(query).value < 5000
    ensures Search(matches, query).Ok? && Search(matches, query).value.hasMore ==>
              Search(matches, query.(cursor := Search(matches, query).value.nextCursor)).Ok?
  {
    if PageOffset(query).Ok? && PageOffset(query).value < MAX_SEARCH_WINDOW {
      SearchLimit(query);
      var handed := Take(matches, BoundedSearchLimit(query).value);
      if PaginatedItems(handed, query).value.hasMore {
        NextSearchIsAccepted(handed, query);
      }
    }
  }

  /** The next cursor lies within what was handed over, which is within the window. */
  lemma NextSearchIsAccepted<T>(handed: seq<T>, query: PageQuery)
    requires |handed| <= MAX_SEARCH_WINDOW && PageOffset(query).Ok? && PaginatedItems(handed, query).value.hasMore
    ensures var next := query.(cursor := PaginatedItems(handed, query).value.nextCursor);
            PageOffset(next).Ok? && PageOffset(next).value < MAX_SEARCH_WINDOW
  {
    PageFacts(handed, query);
  }

  /** A search page in the terms of the window: the same page but for the total, and its cursor is good for a search. */
  lemma SearchFacts<T>(matches: seq<T>, query: PageQuery)
    requires Search(matches, query).Ok?
    ensures var page := Search(matches, query).value;
            && PageOffset(query).Ok?
            && page == PaginatedItems(Take(matches, MAX_SEARCH_WINDOW), query).value.(total := page.total)
            && (page.hasMore ==>
                  var next := query.(cursor := page.nextCursor);
                  && Search(matches, next).Ok? && PageOffset(next).Ok?
                  && PageOffset(query).value < PageOffset(next).value < |matches|)
  {
    SearchCursorsAreAccepted(matches, query);
    SearchAgreesWithWindow(matches, query);
    PageFacts(Take(matches, MAX_SEARCH_WINDOW), query);
  }

  /** Every page a client gets that searches with query and follows each next_cursor. */
  function FollowSearch<T>(matches: seq<T>, query: PageQuery): (pages: seq<Page<T>>)
    requires Search(matches, query).Ok?
    decreases |matches| - (SearchFacts(matches, query); PageOffset(query).value)
  {
    SearchFacts(matches, query);
    var page := Search(matches, query).value;
    if !page.hasMore then [page] else [page] + FollowSearch(matches, query.(cursor := page.nextCursor))
  }

  /** Page for page, following a search is paging the first 5000 matches, except for the totals. */
  lemma {:induction false} SearchFollowsWindow<T>(matches: seq<T>, query: PageQuery)
    requires Search(matches, query).Ok? && PageOffset(query).Ok?
    ensures var searched, paged := FollowSearch(matches, query), Follow(Take(matches, MAX_SEARCH_WINDOW), query);
            && |searched| == |paged|
            && forall i :: 0 <= i < |paged| ==> searched[i] == paged[i].(total := searched[i].total)
    decreases |matches| - PageOffset(query).value
  {
    var window := Take(matches, MAX_SEARCH_WINDOW);
    var searched, paged := FollowSearch(matches, query), Follow(window, query);
    SearchFacts(matches, query);
    if searched[0].hasMore {
      var next := query.(cursor := searched[0].nextCursor);
      SearchFollowsWindow(matches, next);
      assert searched == [searched[0]] + FollowSearch(matches, next);
      assert paged == [paged[0]] + Follow(window, next);
    }
  }

  lemma {:induction false} JoinedAgrees<T>(a: seq<Page<T>>, b: seq<Page<T>>)
    requires |a| == |b| && forall i :: 0 <= i < |a| ==> a[i].items == b[i].items
    ensures Joined(a) == Joined(b)
  {
    if a != [] {
      JoinedAgrees(a[1..], b[1..]);
    }
  }

  /** Following a search to its end yields exactly the first 5000 matches from the offset on. */
  lemma SearchIsComplete<T>(matches: seq<T>, query: PageQuery)
    requires Search(matches, query).Ok? && PageOffset(query).Ok?
    ensures Joined(FollowSearch(matches, query)) == Skip(Take(matches, 5000), PageOffset(query).value)
  {
    var window := Take(matches, MAX_SEARCH_WINDOW);
    SearchFollowsWindow(matches, query);
    JoinedAgrees(FollowSearch(matches, query), Follow(window, query));
    FollowIsComplete(window, query);
  }
}
