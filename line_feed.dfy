/** The home feed (LineFeed.tsx): one query for the lines, an optional calendar-day
    window, two membership lookups for a signed-in viewer, then the join. */
module LineFeed {
  import opened Wrappers
  import opened Records
  import opened Tables

  /** The `date` search parameter, already turned into the millisecond of local
      midnight of that day; Unparseable is a string `new Date` rejects. An absent or
      empty parameter is NoFilter. */
  datatype DateFilter = NoFilter | Day(startOfDay: int) | Unparseable

  /** `setHours(23, 59, 59, 999)` measured from `setHours(0, 0, 0, 0)`. */
  const EndOfDayOffset: int := 23 * 3_600_000 + 59 * 60_000 + 59 * 1_000 + 999

  /** `.gte('created_at', startOfDay).lte('created_at', endOfDay)`: both bounds
      inclusive; no bound at all without a filter. No query is built for an
      unparseable date: the window's `toISOString` throws first. */
  predicate Admits(filter: DateFilter, createdAt: int)
    requires !filter.Unparseable?
  {
    if filter.Day? then filter.startOfDay <= createdAt <= filter.startOfDay + EndOfDayOffset else true
  }

  /** The window is the whole day: its first and last milliseconds are admitted, the
      milliseconds just outside are not. */
  lemma DayWindowBounds(start: int)
    ensures EndOfDayOffset == 86_400_000 - 1
    ensures Admits(Day(start), start) && Admits(Day(start), start + 86_399_999)
    ensures !Admits(Day(start), start - 1) && !Admits(Day(start), start + 86_400_000)
    ensures Admits(Day(start), start + 86_399_000) && !Admits(Day(start), start + 86_401_000)
  {
  }

  /** The rows the query returns from the (newest-first) table: the admitted ones,
      in table order. */
  function Query(rows: seq<Row>, filter: DateFilter): (r: seq<Row>)
    requires !filter.Unparseable?
    ensures |r| <= |rows|
    ensures forall x :: x in r <==> x in rows && Admits(filter, x.createdAt)
    ensures filter.NoFilter? ==> r == rows
  {
    if rows == [] then []
    else if Admits(filter, rows[0].createdAt) then [rows[0]] + Query(rows[1..], filter)
    else Query(rows[1..], filter)
  }

  /** The query keeps the table's order: filtering two consecutive stretches of the
      table separately and appending gives the filtered table. */
  lemma {:induction false} QueryAppend(a: seq<Row>, b: seq<Row>, filter: DateFilter)
    requires !filter.Unparseable?
    ensures Query(a + b, filter) == Query(a, filter) + Query(b, filter)
  {
    if a == [] {
      assert a + b == b;
    } else {
      assert (a + b)[0] == a[0] && (a + b)[1..] == a[1..] + b;
      QueryAppend(a[1..], b, filter);
    }
  }

  /** One membership lookup the feed sends to the store. */
  datatype Lookup = Lookup(table: Table, viewer: Id, lineIds: seq<Id>)

  /** The ids a lookup response contributes (`response.data?.map(...) || []`): none
      without a viewer, none when the response carries an error. */
  function ViewerIds(table: set<Pair>, viewer: Option<Id>, ids: seq<Id>, failed: bool): (r: set<Id>)
    ensures viewer.None? || failed ==> r == {}
    ensures forall l :: l in r <==> viewer.Some? && !failed && (viewer.value, l) in table && l in ids
  {
    if viewer.None? || failed then {} else LookupIds(table, viewer.value, ids)
  }

  /** The lookups issued for a page: none for an anonymous viewer, otherwise one
      against each table, restricted to exactly the page's line ids. */
  function LookupsFor(viewer: Option<Id>, rows: seq<Row>): (r: seq<Lookup>)
    ensures viewer.None? <==> r == []
    ensures viewer.Some? ==> |r| == 2 && r[0].table == Likes && r[1].table == Bookmarks
    ensures forall k :: 0 <= k < |r| ==> r[k].viewer == viewer.value && r[k].lineIds == Ids(rows)
  {
    match viewer
    case None => []
    case Some(u) => [Lookup(Likes, u, Ids(rows)), Lookup(Bookmarks, u, Ids(rows))]
  }

  /** The records of a fetched page. */
  function FeedRecords(rows: seq<Row>, viewer: Option<Id>, likes: set<Pair>, bookmarks: set<Pair>,
                       likesFailed: bool, bookmarksFailed: bool): seq<DisplayLine>
  {
    var ids := Ids(rows);
    Assemble(rows, ViewerIds(likes, viewer, ids, likesFailed), ViewerIds(bookmarks, viewer, ids, bookmarksFailed))
  }

  /** The flags are the viewer's own: a record is liked (bookmarked) exactly when the
      viewer's pair for that line is in the likes (bookmarks) table, and never for an
      anonymous viewer. A lookup that came back with an error shows as not liked
      (not bookmarked). */
  lemma FeedFlagsAreViewerRelative(rows: seq<Row>, viewer: Option<Id>, likes: set<Pair>, bookmarks: set<Pair>,
                                   likesFailed: bool, bookmarksFailed: bool)
    ensures var r := FeedRecords(rows, viewer, likes, bookmarks, likesFailed, bookmarksFailed);
      && |r| == |rows|
      && forall i :: 0 <= i < |rows| ==>
        && Describes(r[i], rows[i])
        && (r[i].isLiked <==> viewer.Some? && !likesFailed && (viewer.value, rows[i].id) in likes)
        && (r[i].isBookmarked <==> viewer.Some? && !bookmarksFailed && (viewer.value, rows[i].id) in bookmarks)
  {
    var ids := Ids(rows);
    forall i | 0 <= i < |rows| ensures rows[i].id in ids {
      assert ids[i] == rows[i].id;
    }
  }

  class Feed {
    var lines: seq<DisplayLine>
    var loading: bool

    constructor ()
      ensures lines == [] && loading
    {
      lines := [];
      loading := true;
    }

    /** fetchLines. A lines query that returns an error (rethrown) or rejects, or a
        date the window cannot be built for (`toISOString` throws on an invalid
        date), is caught: the feed keeps the records it had and nothing is looked
        up. Lookups that reject are caught too, after they were issued: the records
        are kept. Otherwise the records are those of the queried page. */
    method FetchLines(viewer: Option<Id>, filter: DateFilter, store: Store,
                      queryFailed: bool, likesFailed: bool, bookmarksFailed: bool, rejected: Rejection)
      returns (lookups: seq<Lookup>)
      modifies this
      ensures !loading
      ensures queryFailed || rejected == QueryRejected || filter.Unparseable? ==>
        lines == old(lines) && lookups == []
      ensures !queryFailed && rejected != QueryRejected && !filter.Unparseable? ==>
        var rows := Query(store.lines, filter);
        && lookups == LookupsFor(viewer, rows)
        && lines == if viewer.Some? && rejected == LookupsRejected then old(lines)
                    else FeedRecords(rows, viewer, store.likes, store.bookmarks, likesFailed, bookmarksFailed)
    {
      loading := true;
      lookups := [];
      if filter.Unparseable? || queryFailed || rejected == QueryRejected {
        loading := false;
        return;
      }
      var rows := Query(store.lines, filter);
      var userLikes: set<Id> := {};
      var userBookmarks: set<Id> := {};
      if viewer.Some? {
        var ids := Ids(rows);
        lookups := [Lookup(Likes, viewer.value, ids), Lookup(Bookmarks, viewer.value, ids)];
        if rejected == LookupsRejected {
          loading := false;
          return;
        }
        userLikes := if likesFailed then {} else LookupIds(store.likes, viewer.value, ids);
        userBookmarks := if bookmarksFailed then {} else LookupIds(store.bookmarks, viewer.value, ids);
      }
      lines := Assemble(rows, userLikes, userBookmarks);
      loading := false;
    }
  }
}
