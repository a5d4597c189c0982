# OneLine front-end core, modelled in Dafny

OneLine is a micro-posting web front-end. Users compose short "lines", tag them with
a theme, like and bookmark lines, browse a newest-first feed (optionally one
calendar day of it), and manage a profile with a premium flag. Persistence lives in
a hosted store with four tables: `lines`, `likes`, `bookmarks` and `profiles`.

This project models the logic that sits inside the React components:

- the display-record join (row + viewer's likes/bookmarks + author name);
- the like/bookmark toggles against the `likes`/`bookmarks` tables;
- the two-step composer;
- the premium theme gate and the theme-class lookup;
- the username editor and the one-way premium upgrade.

The store's tables are abstract values. `lines` is a sequence of rows that the store
has already ordered newest first, and `likes`/`bookmarks` are sets of
`(user_id, line_id)` pairs. Network results (a query error, a thrown exception, an
`updateProfile` error) are parameters of the operations.

Modules, one per source file, plus the shared pieces:

- `Wrappers`: Option.
- `Text`: JavaScript `trim`.
- `Records`: the shapes in `src/types/index.ts`, and the row-to-record join that
  `LineFeed.tsx` and `Profile.tsx` both write out.
- `Tables`: the pair tables, the mutations and the `Store` class.
- `LineFeed`, `LineCard`, `ThemeSelector`, `ComposeModal`, `ProfilePage`,
  `SettingsPage`: one per source file.
- `Auth`: the session `Session` the pages read. The auth context itself is not part
  of this model. `updateProfile` is assumed to apply the partial update on success
  and to change nothing on error.
- `Scenarios`: the feed and a card used together.

Component state that a handler updates step by step is a class with those fields:
`Feed`, `Card`, `Composer`, `ProfileView`, `Appearance`. Three asynchronous
handlers are split at their `await` into a "press" method and a "settled" method:
`handleLike`, `handleBookmark` and `handlePost`. This makes the in-flight flag
(`isLiking`, `isBookmarking`, `isPosting`) visible between the two halves. The other
asynchronous handlers (`fetchLines`, `fetchUserData`, `handleUpdateUsername`,
`handlePremiumUpgrade`) are each modelled as one step, and overlapping calls of
them are not modelled.

On these error paths the model does what the code does:

- A like or bookmark lookup in the feed that resolves with an error has
  `data: null`. `?.map(...) || []` turns that into an empty list, so those records
  show as not liked / not bookmarked, and the rest of the fetch goes on
  (`LineFeed.ViewerIds`).
- An unparseable `date` parameter makes `toISOString` throw while the window is
  built. The handler catches it, no query is sent, and the feed keeps its records
  (`LineFeed.Feed.FetchLines`).
- A failed lines query is caught by the same handler, and `lines` keeps its value.
- A call that rejects (a network failure) is an input too (`Tables.Rejection`). In
  the feed, a rejected lines query or rejected lookups are caught and `lines` keeps
  its value. On the profile page, a rejected query or rejected lookups are caught
  and both tabs keep their values.
- The profile page checks none of its query errors: a failed query reads as an
  empty list. A bookmark whose joined line is null makes `bookmark.lines.id` throw,
  and both tabs keep what they held (`ProfilePage.JoinedLines`).
- The premium upgrade is requested when the profile is missing too, because
  `profile?.is_premium` is then falsy (`SettingsPage.UpgradeRequest`).

## Model

| member | source | states |
|---|---|---|
| `Text.Trim` | src/components/ComposeModal.tsx:39 | `trim` yields the slice between the leading and the trailing white space, and neither end of it is white space |
| `Text.TrimEmptyIff` | src/components/ComposeModal.tsx:39-41 | `text.trim()` is empty exactly when every character is white space (both directions) |
| `Records.AuthorLabel` | src/components/LineFeed.tsx:84 | the author is the joined username; a missing join or an empty username gives `'Unknown'` |
| `Records.Ids` | src/components/LineFeed.tsx:61 | the page's line ids, one per row, in row order |
| `Records.Assemble` | src/components/LineFeed.tsx:81-91 | one record per row, same length and order; id, text, authorId, likes, timestamp and theme copied; author by fallback; isLiked/isBookmarked iff the id is in the liked/bookmarked list |
| `Records.AssembleAppend` | src/components/LineFeed.tsx:81-91 | the join commutes with concatenation of row sequences, so record order is row order |
| `Records.AssembleBookmarked` | src/pages/Profile.tsx:113-123 | Bookmarked tab: one record per row in order, fields copied, isLiked by like-list membership, isBookmarked always true |
| `Records.BookmarkedAgreesWithLookup` | src/pages/Profile.tsx:113-123 | when every row's id is in the bookmark list, the hard-wired tab equals the general join |
| `Records.LookupIds` | src/components/LineFeed.tsx:63-73 | a lookup returns exactly the line ids of the viewer's pairs that are among the ids asked about |
| `Tables.Perform` | src/components/LineCard.tsx:59-69 | insert makes the pair present, delete makes it absent; every other pair keeps its membership |
| `Tables.ToggleFlipsExactlyOnePair` | src/components/LineCard.tsx:59-69 | with the flag in step with the table, a toggle flips its own pair's membership and no other |
| `Tables.ToggleTwiceRestores` | src/components/LineCard.tsx:59-70 | two toggles with the flag refreshed in between restore the table |
| `Tables.Store.Execute` | src/components/LineCard.tsx:59-69 | only a completed call changes a table, and only the table the mutation names |
| `ThemeSelector.ThemeTableShape` | src/components/ThemeSelector.tsx:7-14 | six themes, distinct names, `'Default'` first |
| `ThemeSelector.Select` | src/components/ThemeSelector.tsx:25-35 | `'Default'` is always applied; any theme is applied for a premium profile; otherwise (missing or free profile) the selection is unchanged |
| `ThemeSelector.LockedIffRejected` | src/components/ThemeSelector.tsx:26-40 | a click on a padlocked tile never changes the selection, even on the selected tile; among clicks that would change it, the padlock is shown exactly on those rejected |
| `ThemeSelector.SelectedCountOfDistinct` | src/components/ThemeSelector.tsx:41 | over distinct names, at most one tile matches the selection, and exactly one iff it is among the names |
| `ThemeSelector.AtMostOneSelected` | src/components/ThemeSelector.tsx:7-41 | in the theme table, at most one tile is drawn selected; exactly one when the selection is a table name |
| `LineFeed.DayWindowBounds` | src/components/LineFeed.tsx:40-50 | the window spans 00:00:00.000 to 23:59:59.999, both ends inclusive; the ms just outside are excluded; 23:59:59.000 is in and 00:00:01 of the next day is out |
| `LineFeed.Query` | src/components/LineFeed.tsx:32-52 | for a parseable filter (an unparseable one throws before any query is built), a row is returned iff it is in the table and its created_at is in the window; no filter returns the table unchanged |
| `LineFeed.QueryAppend` | src/components/LineFeed.tsx:38 | filtering keeps the table's newest-first order |
| `LineFeed.ViewerIds` | src/components/LineFeed.tsx:57-78 | an id is in the list iff there is a viewer, the response has no error, the viewer's pair for it is in the table and it is one of the page's ids; so the list is empty with no viewer or an error |
| `LineFeed.LookupsFor` | src/components/LineFeed.tsx:60-74 | no lookup without a viewer; otherwise exactly two, likes first and bookmarks second, each by that viewer and restricted to exactly the page's ids |
| `LineFeed.FeedFlagsAreViewerRelative` | src/components/LineFeed.tsx:57-91 | each record's isLiked/isBookmarked holds iff the viewer's own pair is in likes/bookmarks; both are false for an anonymous viewer |
| `LineFeed.Feed.constructor` | src/components/LineFeed.tsx:23-24 | the feed starts empty and loading |
| `LineFeed.Feed.FetchLines` | src/components/LineFeed.tsx:29-99 | loading ends false; on a query error, a rejected query or an unparseable date the records are kept and nothing is looked up; otherwise the lookups are those of LookupsFor, and the records are kept if those lookups reject and are the join of the queried page if not |
| `LineCard.CardThemesMatchPicker` | src/components/LineCard.tsx:32-39 | the card's theme classes are the picker's, name for name |
| `LineCard.ThemeClass` | src/components/LineCard.tsx:117 | the class of a known theme; Default's class for a missing, empty or unknown theme |
| `LineCard.ThemedBoxClass` | src/components/LineCard.tsx:117-118 | the box is drawn when the theme is present, non-empty and not `'Default'`; such a box wears a class other than Default's iff its theme is a known one, so a known non-Default theme is never drawn in Default's colours |
| `LineCard.PressRequest` | src/components/LineCard.tsx:47-69 | no request while one is in flight or without a viewer; otherwise a delete of the viewer's pair iff the flag is set, insert otherwise |
| `LineCard.PressIsToggle` | src/components/LineCard.tsx:59-69 | a completed press whose flag matched the table is the toggle of that pair and flips its membership |
| `LineCard.Card.constructor` | src/components/LineCard.tsx:42-43 | neither button is in flight |
| `LineCard.Card.PressLike` | src/components/LineCard.tsx:47-57 | sends PressRequest for the likes table; the in-flight flag is raised iff a request was sent |
| `LineCard.Card.LikeSettled` | src/components/LineCard.tsx:58-79 | the flag drops whatever the outcome; refetch iff the call did not throw; only likes changes, and only on completion |
| `LineCard.Card.PressBookmark` | src/components/LineCard.tsx:82-92 | sends PressRequest for the bookmarks table; the flag is raised iff a request was sent |
| `LineCard.Card.BookmarkSettled` | src/components/LineCard.tsx:93-114 | the flag drops; refetch iff no throw; likes is never touched |
| `ComposeModal.Capped` | src/components/ComposeModal.tsx:133 | the textarea keeps the whole input when it fits and otherwise exactly its first 150 characters |
| `ComposeModal.PostRequest` | src/components/ComposeModal.tsx:44-55 | a post is sent iff not in flight, a viewer is signed in and the text is not blank; it carries the trimmed text, the viewer as author and the selected theme |
| `ComposeModal.Composer.constructor` | src/components/ComposeModal.tsx:19-22 | text step, empty text, `'Default'`, not posting |
| `ComposeModal.Composer.RemainingChars` | src/components/ComposeModal.tsx:27-28 | remaining = 150 − length, always within [0, 150] |
| `ComposeModal.Composer.Show` | src/components/ComposeModal.tsx:88 | the dialog is open |
| `ComposeModal.Composer.Type` | src/components/ComposeModal.tsx:128-133 | on the text step the text becomes the capped input; the budget invariant is kept |
| `ComposeModal.Composer.Next` | src/components/ComposeModal.tsx:30-42 | no viewer: a notice and the step unchanged; with a viewer the step becomes 'theme' iff the trimmed text is non-empty |
| `ComposeModal.Composer.Back` | src/components/ComposeModal.tsx:99-104 | back to the text step; text and theme kept |
| `ComposeModal.Composer.ChooseTheme` | src/components/ComposeModal.tsx:154-157 | the selection changes only through the premium gate |
| `ComposeModal.Composer.BeginPost` | src/components/ComposeModal.tsx:44-56 | sends PostRequest; isPosting is raised iff a post was sent |
| `ComposeModal.Composer.PostSettled` | src/components/ComposeModal.tsx:57-78 | success resets text/theme/step and closes; failure leaves them as they were; isPosting ends false |
| `ComposeModal.Composer.Close` | src/components/ComposeModal.tsx:80-85 | from any state, text `''`, theme `'Default'`, step 'text', closed |
| `Auth.ApplyPatch` | src/pages/Settings.tsx:24 | a partial update changes exactly the columns it names |
| `Auth.Session.UpdateProfile` | src/pages/Settings.tsx:24-25 | error iff the call fails; success applies the update |
| `SettingsPage.UpgradeRequest` | src/pages/Settings.tsx:21-24 | nothing is requested iff the profile is premium; otherwise `is_premium = true` and nothing else |
| `SettingsPage.Upgraded` | src/pages/Settings.tsx:20-31 | the upgrade keeps id and username; afterwards premium iff it was premium or the update succeeded |
| `SettingsPage.UpgradeIdempotent` | src/pages/Settings.tsx:21-24 | after a successful upgrade, further calls request nothing and change nothing |
| `SettingsPage.HandlePremiumUpgrade` | src/pages/Settings.tsx:20-31 | the request is UpgradeRequest; the notice shows iff a request was sent and returned no error |
| `SettingsPage.ThemeForSwitch` | src/pages/Settings.tsx:114 | a flip writes 'dark' or 'light' |
| `SettingsPage.SwitchRoundTrip` | src/pages/Settings.tsx:113-114 | the switch is checked when the colour theme is 'dark'; flipping it to a position writes 'dark' or 'light', and reading that back gives the position |
| `SettingsPage.Appearance.FlipDarkMode` | src/pages/Settings.tsx:114 | the written theme reads back as the switch position |
| `ProfilePage.AuthoredBy` | src/pages/Profile.tsx:57-64 | the author query returns exactly the author's rows of the table |
| `ProfilePage.AuthoredByAppend` | src/pages/Profile.tsx:63-64 | the author query keeps the table's newest-first order: selecting from two consecutive stretches and appending gives the selection of the whole |
| `ProfilePage.JoinedLines` | src/pages/Profile.tsx:78-81 | the joined lines are returned iff none is null, one per bookmark, in order |
| `ProfilePage.ProfileLookupIds` | src/pages/Profile.tsx:78-81 | the lookup list is the viewer's own line ids followed by the bookmarked lines' ids, in order |
| `ProfilePage.ResponseIds` | src/pages/Profile.tsx:96-97 | an id is contributed iff the lookup did not fail, the viewer's pair for it is in the table and it is among the ids asked about; a failed lookup contributes none |
| `ProfilePage.ProfileFlagsAreViewerRelative` | src/pages/Profile.tsx:96-123 | My Lines flags hold iff the viewer's pair is in the table; Bookmarked records are liked likewise and always bookmarked |
| `ProfilePage.BookmarkedTabMatchesLookup` | src/pages/Profile.tsx:113-123 | for a consistent store, the tab's hard-wired flag agrees with the bookmark lookup |
| `ProfilePage.UsernameRequest` | src/pages/Profile.tsx:134-143 | an update is sent iff the input is not blank and differs (untrimmed) from the current username; it carries the trimmed input |
| `ProfilePage.PaddedCurrentNameIsSent` | src/pages/Profile.tsx:135-136 | `" bob"` against current `"bob"` still sends an update, for `"bob"` |
| `ProfilePage.ProfileView.constructor` | src/pages/Profile.tsx:31-35 | not editing, empty name, empty tabs, loading |
| `ProfilePage.ProfileView.FetchUserData` | src/pages/Profile.tsx:51-132 | no user: nothing changes; a rejected query or a null bookmark join: tabs kept and no lookup; rejected lookups: tabs kept after the lookup list is built; otherwise My Lines and Bookmarked are the two joins over the fetched rows and the combined lookup list, every Bookmarked record is a distinct line the viewer has bookmarked, and with a successful lookup its hard-wired flag is the lookup's; loading ends false |
| `ProfilePage.ProfileView.Refresh` | src/pages/Profile.tsx:39-49 | the page redirects to /login iff there is no user; fetches happen iff user and profile are present, seeding the editor with the username; a fetch leaves the tabs as they were on a rejected call or a null bookmark join and otherwise sets them to the two joins, as in FetchUserData |
| `ProfilePage.ProfileView.StartEditing` | src/pages/Profile.tsx:196 | editing starts |
| `ProfilePage.ProfileView.EditUsername` | src/pages/Profile.tsx:173 | the input holds what was typed |
| `ProfilePage.ProfileView.SaveUsername` | src/pages/Profile.tsx:134-143 | the request is UsernameRequest; editing ends unless a request was sent and returned an error |
| `ProfilePage.ProfileView.Cancel` | src/pages/Profile.tsx:182-185 | the input is restored to the profile's username and editing ends |
| `Scenarios.FetchedRecord` | src/components/LineFeed.tsx:81-91 | the i-th record of an unfiltered page is the i-th line, liked iff the viewer's pair is in likes |
| `Scenarios.LikeFromFeed` | src/components/LineCard.tsx:47-79 | a completed like press on the card of a freshly fetched feed line toggles the viewer's pair for that line and changes nothing else |
| `Scenarios.LikeTwiceRestores` | src/components/LineCard.tsx:47-79 | pressing like, refetching, and pressing like again on the same feed line leaves likes, bookmarks and lines as they were |

## Left out

- Network calls, the query builder and `Promise.all` are left out. The two lookups
  run one after the other in the model; they are independent.
- `likes_count` is kept up by the store. The model never claims a toggle changes the
  displayed count.
- `LineFeed.Query`: `created_at` is modelled as whole milliseconds. The store
  compares the raw column with `...T23:59:59.999Z`, so a stored timestamp with
  digits after `.999` falls in neither that day's window nor the next day's. The
  whole-day claim of `DayWindowBounds` holds only at millisecond resolution.
- JavaScript dates are left out: parsing, local-time `setHours`, daylight-saving
  days, `toISOString` and the relative-time formatting. A date filter is given as
  the millisecond of local midnight. A day is assumed to be 86 400 000 ms long.
- `LineFeed.Feed.FetchLines`, `ProfilePage.ProfileView.FetchUserData`: the model does
  not show `loading` being true while the request runs. It shows only where
  `loading` ends.
- `LineFeed.Feed.FetchLines`: the rows' newest-first order is the store's
  (`.order('created_at', ...)`); the model takes the table as already ordered.
- `ProfilePage.ProfileView.FetchUserData`: the bookmarks query has no `.order`, so
  its rows arrive as an input in an order the store chooses. The contract requires
  only what the store guarantees about that input: each joined line is a row of
  `lines` that the viewer has bookmarked, and no line comes twice. It does not
  require every bookmarked line to appear, because a failed query returns none.
- The `profiles` join is done by the store. A row carries the joined username.
- `Text.Trim`: characters are Unicode scalar values. JavaScript counts UTF-16 code
  units, so `Capped` and `RemainingChars` differ from the browser for characters
  outside the Basic Multilingual Plane.
- `LineCard.ThemeClass`: a theme name equal to an inherited object key (such as
  `"toString"`) would look up a function in the source. The model treats every
  unknown name as missing.
- `ComposeModal.Capped`: `maxLength` is modelled as keeping the first 150
  characters of the new value, which is what the browser does for typing or
  pasting at the end of the text. A paste in the middle keeps the old text around a
  truncated paste; the model does not capture that.
- `ComposeModal.Composer.Next`: the Next button is also disabled when the text is
  blank or no viewer is signed in. The model gives the handler's own behaviour.
- `Auth.Session.UpdateProfile`: the auth context is not part of this model. Its
  effect on success is assumed, not derived.
- The settings page's redirect without a user is the same `Auth.Gate` that
  `ProfilePage.ProfileView.Refresh` states; the settings page's render is not
  modelled as a method of its own.
- Toasts, navigation calls, rendering, skeletons and the language selector are left
  out. So are sign-out, Header, FloatingActionButton, Index, LineOfTheDay,
  SearchModal (date to ISO string for a URL) and the mobile media-query hook.
