/** The profile page (Profile.tsx): the viewer's own lines and bookmarked lines, each
    joined with the viewer's likes and bookmarks, and the username editor. */
module ProfilePage {
  import opened Wrappers
  import opened Records
  import opened Text
  import opened Tables
  import opened Auth

  /** `.eq('author_id', user.id)` on the newest-first lines table: the author's rows,
      in table order. */
  function AuthoredBy(rows: seq<Row>, author: Id): (r: seq<Row>)
    ensures |r| <= |rows|
    ensures forall x :: x in r <==> x in rows && x.authorId == author
  {
    if rows == [] then []
    else if rows[0].authorId == author then [rows[0]] + AuthoredBy(rows[1..], author)
    else AuthoredBy(rows[1..], author)
  }

  /** The author query keeps the table's order: selecting from two consecutive
      stretches of the table separately and appending gives the selection of the
      whole, so the tab lists the author's lines newest first. */
  lemma {:induction false} AuthoredByAppend(a: seq<Row>, b: seq<Row>, author: Id)
    ensures AuthoredBy(a + b, author) == AuthoredBy(a, author) + AuthoredBy(b, author)
  {
    if a == [] {
      assert a + b == b;
    } else {
      assert (a + b)[0] == a[0] && (a + b)[1..] == a[1..] + b;
      AuthoredByAppend(a[1..], b, author);
    }
  }

  /** What the bookmarks query can return for `viewer`: each joined line is a row of
      the lines table that the viewer has bookmarked, and no line comes twice, since
      the bookmarks table holds each (viewer, line) pair once. A null entry is a
      bookmark whose line the viewer cannot read; a failed query returns none. */
  predicate BookmarksResponse(response: seq<Option<Row>>, lines: seq<Row>, table: set<Pair>, viewer: Id)
  {
    && (forall i :: 0 <= i < |response| && response[i].Some? ==>
          response[i].value in lines && (viewer, response[i].value.id) in table)
    && (forall i, j :: 0 <= i < j < |response| && response[i].Some? && response[j].Some? ==>
          response[i].value.id != response[j].value.id)
  }

  /** `bookmark.lines` for every bookmark returned: the joined lines, or None when
      one of them is null, where reading its `id` throws. */
  function JoinedLines(bookmarks: seq<Option<Row>>): (r: Option<seq<Row>>)
    ensures r.Some? <==> forall i :: 0 <= i < |bookmarks| ==> bookmarks[i].Some?
    ensures r.Some? ==> |r.value| == |bookmarks|
                        && forall i :: 0 <= i < |bookmarks| ==> r.value[i] == bookmarks[i].value
  {
    if bookmarks == [] then Some([])
    else match (bookmarks[0], JoinedLines(bookmarks[1..]))
      case (Some(row), Some(rest)) => Some([row] + rest)
      case _ => None
  }

  /** The ids both lookups are restricted to: the viewer's own lines first, then the
      bookmarked ones, each in the order fetched. */
  function ProfileLookupIds(own: seq<Row>, marked: seq<Row>): (r: seq<Id>)
    ensures |r| == |own| + |marked|
    ensures forall i :: 0 <= i < |own| ==> r[i] == own[i].id
    ensures forall j :: 0 <= j < |marked| ==> r[|own| + j] == marked[j].id
  {
    Ids(own) + Ids(marked)
  }

  /** The ids a lookup response contributes; the profile page never checks the
      response's error, so a failed lookup reads as an empty list. */
  function ResponseIds(table: set<Pair>, viewer: Id, ids: seq<Id>, failed: bool): (r: set<Id>)
    ensures failed ==> r == {}
    ensures forall l :: l in r <==> !failed && (viewer, l) in table && l in ids
  {
    if failed then {} else LookupIds(table, viewer, ids)
  }

  /** Every record of both tabs carries the viewer's own flags: a "My Lines" record is
      liked (bookmarked) exactly when the viewer's pair is in the table, a
      "Bookmarked" record is liked likewise and always bookmarked. */
  lemma ProfileFlagsAreViewerRelative(own: seq<Row>, marked: seq<Row>, viewer: Id,
                                       likes: set<Pair>, bookmarks: set<Pair>,
                                       likesFailed: bool, bookmarksFailed: bool)
    ensures var ids := ProfileLookupIds(own, marked);
      var liked := ResponseIds(likes, viewer, ids, likesFailed);
      var mine := Assemble(own, liked, ResponseIds(bookmarks, viewer, ids, bookmarksFailed));
      var saved := AssembleBookmarked(marked, liked);
      && (forall i :: 0 <= i < |own| ==>
            && (mine[i].isLiked <==> !likesFailed && (viewer, own[i].id) in likes)
            && (mine[i].isBookmarked <==> !bookmarksFailed && (viewer, own[i].id) in bookmarks))
      && (forall j :: 0 <= j < |marked| ==>
            && (saved[j].isLiked <==> !likesFailed && (viewer, marked[j].id) in likes)
            && saved[j].isBookmarked)
  {
    var ids := ProfileLookupIds(own, marked);
    forall i | 0 <= i < |own| ensures own[i].id in ids {
      assert ids[i] == own[i].id;
    }
    forall j | 0 <= j < |marked| ensures marked[j].id in ids {
      assert ids[|own| + j] == marked[j].id;
    }
  }

  /** When the bookmark lookup succeeds and the store is consistent (each fetched
      bookmarked line has the viewer's pair), the hard-wired flag of the "Bookmarked"
      tab is the flag the lookup gives. */
  lemma BookmarkedTabMatchesLookup(own: seq<Row>, marked: seq<Row>, viewer: Id,
                                   likes: set<Pair>, bookmarks: set<Pair>, likesFailed: bool)
    requires forall j :: 0 <= j < |marked| ==> (viewer, marked[j].id) in bookmarks
    ensures var ids := ProfileLookupIds(own, marked);
      var liked := ResponseIds(likes, viewer, ids, likesFailed);
      AssembleBookmarked(marked, liked) == Assemble(marked, liked, ResponseIds(bookmarks, viewer, ids, false))
  {
    var ids := ProfileLookupIds(own, marked);
    forall j | 0 <= j < |marked| ensures marked[j].id in ResponseIds(bookmarks, viewer, ids, false) {
      assert ids[|own| + j] == marked[j].id;
    }
    BookmarkedAgreesWithLookup(marked, ResponseIds(likes, viewer, ids, likesFailed),
                               ResponseIds(bookmarks, viewer, ids, false));
  }

  /** handleUpdateUsername's decision: a non-blank input that differs from the
      current username sends the trimmed input; anything else sends nothing. The
      comparison is with the untrimmed input. */
  function UsernameRequest(input: string, current: Option<Profile>): (r: Option<string>)
    ensures r.Some? <==> !AllSpace(input) && !(current.Some? && input == current.value.username)
    ensures r.Some? ==> r.value == Trim(input) && r.value != []
  {
    TrimEmptyIff(input);
    if Trim(input) != [] && !(current.Some? && input == current.value.username)
    then Some(Trim(input))
    else None
  }

  /** Because the comparison uses the untrimmed input, padding the current name with
      a space still sends an update, one that asks for the name already held. */
  lemma PaddedCurrentNameIsSent()
    ensures UsernameRequest(" bob", Some(Profile("u1", "bob", false))) == Some("bob")
  {
    var s := " bob";
    assert IsSpace(s[0]) && !IsSpace('b');
    assert s[1..] == "bob";
    assert LeadingSpace("bob") == 0;
    assert LeadingSpace(s) == 1;
    assert TrailingSpace("bob") == 0;
    assert Trim(s) == "bob";
    assert s != "bob";
  }

  class ProfileView {
    var isEditing: bool
    var newUsername: string
    var userLines: seq<DisplayLine>
    var bookmarkedLines: seq<DisplayLine>
    var loading: bool

    constructor ()
      ensures !isEditing && newUsername == "" && userLines == [] && bookmarkedLines == [] && loading
    {
      isEditing := false;
      newUsername := "";
      userLines := [];
      bookmarkedLines := [];
      loading := true;
    }

    /** fetchUserData. Without a user nothing happens. Otherwise the author query
        (empty when it fails), the bookmarks query (`bookmarks`, empty when it fails)
        and the two lookups, over the ids returned, fill both tabs; a bookmark whose
        line is null throws, and a query or the lookups rejecting throws too; the
        error is caught and both tabs keep what they held. Every "Bookmarked"
        record is a distinct line the viewer has bookmarked, and when the bookmark
        lookup succeeds its hard-wired flag is the one the lookup gives. */
    method FetchUserData(user: Option<Id>, store: Store, bookmarks: seq<Option<Row>>,
                         linesFailed: bool, likesFailed: bool, bookmarksFailed: bool, rejected: Rejection)
      returns (lookupIds: Option<seq<Id>>)
      requires user.Some? ==> BookmarksResponse(bookmarks, store.lines, store.bookmarks, user.value)
      modifies this`userLines, this`bookmarkedLines, this`loading
      ensures user.None? ==> lookupIds.None? && userLines == old(userLines)
                             && bookmarkedLines == old(bookmarkedLines) && loading == old(loading)
      ensures user.Some? ==> !loading
      ensures user.Some? && (rejected == QueryRejected || JoinedLines(bookmarks).None?) ==>
        lookupIds.None? && userLines == old(userLines) && bookmarkedLines == old(bookmarkedLines)
      ensures user.Some? && rejected == LookupsRejected && JoinedLines(bookmarks).Some? ==>
        var own := if linesFailed then [] else AuthoredBy(store.lines, user.value);
        && lookupIds == Some(ProfileLookupIds(own, JoinedLines(bookmarks).value))
        && userLines == old(userLines) && bookmarkedLines == old(bookmarkedLines)
      ensures user.Some? && rejected == NoRejection && JoinedLines(bookmarks).Some? ==>
        var own := if linesFailed then [] else AuthoredBy(store.lines, user.value);
        var marked := JoinedLines(bookmarks).value;
        var ids := ProfileLookupIds(own, marked);
        var liked := ResponseIds(store.likes, user.value, ids, likesFailed);
        && lookupIds == Some(ids)
        && userLines == Assemble(own, liked, ResponseIds(store.bookmarks, user.value, ids, bookmarksFailed))
        && bookmarkedLines == AssembleBookmarked(marked, liked)
        && (!bookmarksFailed ==>
              bookmarkedLines == Assemble(marked, liked, ResponseIds(store.bookmarks, user.value, ids, false)))
      ensures user.Some? && rejected == NoRejection && JoinedLines(bookmarks).Some? ==>
        && (forall j :: 0 <= j < |bookmarkedLines| ==>
              (user.value, bookmarkedLines[j].id) in store.bookmarks)
        && (forall i, j :: 0 <= i < j < |bookmarkedLines| ==> bookmarkedLines[i].id != bookmarkedLines[j].id)
    {
      lookupIds := None;
      if user.None? {
        return;
      }
      loading := true;
      if rejected == QueryRejected {
        loading := false;
        return;
      }
      var own := if linesFailed then [] else AuthoredBy(store.lines, user.value);
      var joined := JoinedLines(bookmarks);
      if joined.None? {
        loading := false;
        return;
      }
      var marked := joined.value;
      var ids := ProfileLookupIds(own, marked);
      lookupIds := Some(ids);
      if rejected == LookupsRejected {
        loading := false;
        return;
      }
      var userLikes := ResponseIds(store.likes, user.value, ids, likesFailed);
      var userBookmarks := ResponseIds(store.bookmarks, user.value, ids, bookmarksFailed);
      userLines := Assemble(own, userLikes, userBookmarks);
      bookmarkedLines := AssembleBookmarked(marked, userLikes);
      BookmarkedTabMatchesLookup(own, marked, user.value, store.likes, store.bookmarks, likesFailed);
      loading := false;
    }

    /** The page's effect on (re)render: without a user it redirects to /login and
        fetches nothing; with a loaded profile it seeds the editor with the username
        and fetches. */
    method Refresh(session: Session, store: Store, bookmarks: seq<Option<Row>>,
                   linesFailed: bool, likesFailed: bool, bookmarksFailed: bool, rejected: Rejection)
      returns (screen: Screen, fetched: bool)
      requires session.user.Some? ==> BookmarksResponse(bookmarks, store.lines, store.bookmarks, session.user.value)
      modifies this`newUsername, this`userLines, this`bookmarkedLines, this`loading
      ensures screen == Gate(session.user)
      ensures screen == RedirectToLogin <==> session.user.None?
      ensures fetched <==> session.user.Some? && session.profile.Some?
      ensures !fetched ==> newUsername == old(newUsername) && userLines == old(userLines)
                           && bookmarkedLines == old(bookmarkedLines) && loading == old(loading)
      ensures fetched ==> newUsername == session.profile.value.username && !loading
      ensures fetched && (rejected != NoRejection || JoinedLines(bookmarks).None?) ==>
        userLines == old(userLines) && bookmarkedLines == old(bookmarkedLines)
      ensures fetched && rejected == NoRejection && JoinedLines(bookmarks).Some? ==>
        var u := session.user.value;
        var own := if linesFailed then [] else AuthoredBy(store.lines, u);
        var marked := JoinedLines(bookmarks).value;
        var ids := ProfileLookupIds(own, marked);
        var liked := ResponseIds(store.likes, u, ids, likesFailed);
        && userLines == Assemble(own, liked, ResponseIds(store.bookmarks, u, ids, bookmarksFailed))
        && bookmarkedLines == AssembleBookmarked(marked, liked)
    {
      screen := Gate(session.user);
      fetched := false;
      if session.user.None? || session.profile.None? {
        return;
      }
      newUsername := session.profile.value.username;
      var lookupIds := FetchUserData(session.user, store, bookmarks, linesFailed, likesFailed, bookmarksFailed, rejected);
      fetched := true;
    }

    /** The edit button. */
    method StartEditing()
      modifies this`isEditing
      ensures isEditing
    {
      isEditing := true;
    }

    /** The input's onChange. */
    method EditUsername(input: string)
      modifies this`newUsername
      ensures newUsername == input
    {
      newUsername := input;
    }

    /** handleUpdateUsername: a request, if any, goes through `updateProfile`;
        editing ends unless a request was sent and came back with an error. */
    method SaveUsername(session: Session, succeeds: bool) returns (request: Option<string>)
      modifies this`isEditing, session
      ensures request == UsernameRequest(newUsername, old(session.profile))
      ensures isEditing == (old(isEditing) && request.Some? && !succeeds)
      ensures session.user == old(session.user)
      ensures session.profile == if request.Some? && succeeds && old(session.profile).Some?
                                 then Some(ApplyPatch(old(session.profile).value, ProfilePatch(request, None)))
                                 else old(session.profile)
    {
      request := UsernameRequest(newUsername, session.profile);
      if request.Some? {
        var error := session.UpdateProfile(ProfilePatch(request, None), succeeds);
        if !error {
          isEditing := false;
        }
      } else {
        isEditing := false;
      }
    }

    /** The Cancel button, shown only once the profile is loaded: the input goes back
        to the current username and editing ends. */
    method Cancel(session: Session)
      requires session.profile.Some?
      modifies this`isEditing, this`newUsername
      ensures !isEditing && newUsername == session.profile.value.username
    {
      isEditing := false;
      newUsername := session.profile.value.username;
    }
  }
}
