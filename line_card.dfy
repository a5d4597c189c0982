/** One rendered line (LineCard.tsx): its theme styling and its like and bookmark
    buttons. A press checks the viewer, raises the button's in-flight flag and sends
    one insert or delete; when the call settles the flag drops and, unless the call
    threw, the owning view re-fetches. */
module LineCard {
  import opened Wrappers
  import opened Records
  import opened Tables
  import ThemeSelector

  /** The card's own copy of the theme classes (a record keyed by theme name). */
  const CardThemes: map<string, string> := map[
    "Default" := "bg-gradient-to-r from-blue-500 to-purple-600",
    "Sunset" := "bg-gradient-to-r from-orange-400 to-pink-600",
    "Ocean" := "bg-gradient-to-r from-cyan-400 to-blue-600",
    "Forest" := "bg-gradient-to-r from-green-400 to-emerald-600",
    "Royal" := "bg-gradient-to-r from-purple-500 to-indigo-600",
    "Fire" := "bg-gradient-to-r from-red-400 to-yellow-500"
  ]

  /** The card's classes are the picker's: both files list the same six themes with
      the same classes. */
  lemma CardThemesMatchPicker()
    ensures forall t :: t in ThemeSelector.Themes ==> t.name in CardThemes && CardThemes[t.name] == t.cssClass
    ensures forall n :: n in CardThemes ==> n in ThemeSelector.Names(ThemeSelector.Themes)
  {
    assert ThemeSelector.Names(ThemeSelector.Themes) == ["Default", "Sunset", "Ocean", "Forest", "Royal", "Fire"];
  }

  /** `themes[line.theme || 'Default'] || themes['Default']`: the class of a known
      theme, and the Default class for a missing, empty or unknown one. */
  function ThemeClass(theme: Option<string>): (r: string)
    ensures theme.Some? && theme.value in CardThemes ==> r == CardThemes[theme.value]
    ensures theme.None? || theme.value !in CardThemes ==> r == CardThemes["Default"]
    ensures r in CardThemes.Values
  {
    var key := if theme.Some? && theme.value != "" then theme.value else "Default";
    if key in CardThemes then CardThemes[key] else CardThemes["Default"]
  }

  /** `line.theme && line.theme !== 'Default'`: whether the text is drawn inside a
      coloured box. */
  predicate HasTheme(theme: Option<string>)
  {
    match theme
    case None => false
    case Some(t) => t != "" && t != "Default"
  }

  /** A coloured box shows its own theme: for a known theme other than Default the
      box wears a class that is not Default's, so the theme chosen at posting time
      is visible on the card. Only an unknown theme name falls back to Default's. */
  lemma ThemedBoxClass(theme: Option<string>)
    requires HasTheme(theme)
    ensures theme.value in CardThemes <==> ThemeClass(theme) != CardThemes["Default"]
  {
  }

  /** The request a press sends, given the displayed flag: none while the button is
      disabled (a request in flight) or without a signed-in viewer; otherwise a delete
      of the viewer's pair when the flag is set and an insert when it is not. */
  function PressRequest(table: Table, viewer: Option<Id>, lineId: Id, shownPresent: bool, inFlight: bool)
    : (r: Option<Mutation>)
    ensures r.Some? <==> !inFlight && viewer.Some?
    ensures r.Some? ==> r.value.table == table && r.value.pair == (viewer.value, lineId)
                        && (r.value.op == Delete <==> shownPresent)
  {
    if inFlight || viewer.None? then None
    else Some(Mutation(table, if shownPresent then Delete else Insert, (viewer.value, lineId)))
  }

  /** A completed press whose flag was in step with the table is the toggle of that
      pair: its membership flips and every other pair keeps its membership. */
  lemma PressIsToggle(s: set<Pair>, table: Table, viewer: Id, lineId: Id)
    ensures var m := PressRequest(table, Some(viewer), lineId, (viewer, lineId) in s, false);
      && m.Some?
      && Perform(s, m.value.op, m.value.pair) == Toggle(s, (viewer, lineId), (viewer, lineId) in s)
      && ((viewer, lineId) in Perform(s, m.value.op, m.value.pair) <==> (viewer, lineId) !in s)
  {
    ToggleFlipsExactlyOnePair(s, (viewer, lineId));
  }

  class Card {
    const line: DisplayLine
    var isLiking: bool
    var isBookmarking: bool

    constructor (line: DisplayLine)
      ensures this.line == line && !isLiking && !isBookmarking
    {
      this.line := line;
      isLiking := false;
      isBookmarking := false;
    }

    /** handleLike up to the await. */
    method PressLike(viewer: Option<Id>) returns (request: Option<Mutation>)
      modifies this`isLiking
      ensures request == PressRequest(Likes, viewer, line.id, line.isLiked, old(isLiking))
      ensures isLiking == (old(isLiking) || request.Some?)
    {
      request := PressRequest(Likes, viewer, line.id, line.isLiked, isLiking);
      if request.Some? {
        isLiking := true;
      }
    }

    /** handleLike from the await on: the store runs the request; the flag drops
        whatever the outcome; `onUpdate` runs unless the call threw. */
    method LikeSettled(store: Store, request: Mutation, outcome: Outcome) returns (refetch: bool)
      requires isLiking && request.table == Likes
      modifies this`isLiking, store
      ensures !isLiking && isBookmarking == old(isBookmarking)
      ensures refetch <==> outcome != Threw
      ensures store.lines == old(store.lines) && store.bookmarks == old(store.bookmarks)
      ensures store.likes == if outcome == Completed then Perform(old(store.likes), request.op, request.pair)
                             else old(store.likes)
    {
      store.Execute(request, outcome);
      refetch := outcome != Threw;
      isLiking := false;
    }

    /** handleBookmark up to the await. */
    method PressBookmark(viewer: Option<Id>) returns (request: Option<Mutation>)
      modifies this`isBookmarking
      ensures request == PressRequest(Bookmarks, viewer, line.id, line.isBookmarked, old(isBookmarking))
      ensures isBookmarking == (old(isBookmarking) || request.Some?)
    {
      request := PressRequest(Bookmarks, viewer, line.id, line.isBookmarked, isBookmarking);
      if request.Some? {
        isBookmarking := true;
      }
    }

    /** handleBookmark from the await on; the likes table is never touched. */
    method BookmarkSettled(store: Store, request: Mutation, outcome: Outcome) returns (refetch: bool)
      requires isBookmarking && request.table == Bookmarks
      modifies this`isBookmarking, store
      ensures !isBookmarking && isLiking == old(isLiking)
      ensures refetch <==> outcome != Threw
      ensures store.lines == old(store.lines) && store.likes == old(store.likes)
      ensures store.bookmarks == if outcome == Completed then Perform(old(store.bookmarks), request.op, request.pair)
                                 else old(store.bookmarks)
    {
      store.Execute(request, outcome);
      refetch := outcome != Threw;
      isBookmarking := false;
    }
  }
}
