/** Walks through the components together, as the running page does. */
module Scenarios {
  import opened Wrappers
  import opened Records
  import opened Tables
  import opened LineFeed
  import opened LineCard

  /** The i-th record of an unfiltered feed page fetched for a signed-in viewer is
      the i-th line, liked exactly when the viewer's pair is in the likes table. */
  lemma FetchedRecord(lines: seq<Row>, viewer: Id, likes: set<Pair>, bookmarks: set<Pair>, i: nat)
    requires i < |lines|
    ensures var r := FeedRecords(Query(lines, NoFilter), Some(viewer), likes, bookmarks, false, false);
      i < |r| && r[i].id == lines[i].id && (r[i].isLiked <==> (viewer, lines[i].id) in likes)
  {
    FeedFlagsAreViewerRelative(lines, Some(viewer), likes, bookmarks, false, false);
  }

  /** One round on the feed: a signed-in viewer's feed is fetched, the viewer presses
      the like button of the card for the i-th line and the press completes. The
      viewer's pair for that line is toggled and nothing else in the store changes. */
  method LikeFromFeed(store: Store, viewer: Id, i: nat)
    requires i < |store.lines|
    modifies store
    ensures store.lines == old(store.lines) && store.bookmarks == old(store.bookmarks)
    ensures var pair := (viewer, store.lines[i].id);
      store.likes == Toggle(old(store.likes), pair, pair in old(store.likes))
  {
    var feed := new Feed();
    var _ := feed.FetchLines(Some(viewer), NoFilter, store, false, false, false, NoRejection);
    FetchedRecord(store.lines, viewer, store.likes, store.bookmarks, i);
    var card := new Card(feed.lines[i]);
    var request := card.PressLike(Some(viewer));
    var refetch := card.LikeSettled(store, request.value, Completed);
  }

  /** A signed-in viewer presses the like button of the i-th line of the feed, the
      feed re-fetches (onUpdate), and the viewer presses the like button of the fresh
      card for that line again: the likes table is back where it started, and the
      bookmarks table was never touched. */
  method LikeTwiceRestores(store: Store, viewer: Id, i: nat)
    requires i < |store.lines|
    modifies store
    ensures store.likes == old(store.likes) && store.bookmarks == old(store.bookmarks)
    ensures store.lines == old(store.lines)
  {
    var pair := (viewer, store.lines[i].id);
    LikeFromFeed(store, viewer, i);
    LikeFromFeed(store, viewer, i);
    ToggleTwiceRestores(old(store.likes), pair);
  }
}
