/** The records the front-end passes around (src/types/index.ts), the rows it reads
    from the hosted store, and the row-to-display-record join that both the feed and
    the profile page perform. */
module Records {
  import opened Wrappers

  /** Store identifiers (uuids) and ISO timestamps are opaque strings to the front-end;
      timestamps are modelled as integer milliseconds. */
  type Id = string

  /** A row of the `lines` table as the feed and profile queries return it, together
      with the `profiles!lines_author_id_fkey (username)` join, which is None when the
      store finds no profile. */
  datatype Row = Row(
    id: Id,
    text: string,
    authorId: Id,
    theme: Option<string>,
    likesCount: int,
    createdAt: int,
    profileName: Option<string>)

  /** The viewer-relative display record (interface Line). */
  datatype DisplayLine = DisplayLine(
    id: Id,
    text: string,
    author: string,
    authorId: Id,
    likes: int,
    timestamp: int,
    isLiked: bool,
    isBookmarked: bool,
    theme: Option<string>)

  /** A row of the `profiles` table (interface Profile); the two timestamps are not
      read by any modelled operation. */
  datatype Profile = Profile(id: Id, username: string, isPremium: bool)

  const Unknown: string := "Unknown"

  /** `line.profiles?.username || 'Unknown'`: a missing join and an empty username
      are both falsy, so both fall back to the placeholder. */
  function AuthorLabel(name: Option<string>): (r: string)
    ensures r != ""
    ensures name.Some? && name.value != "" ==> r == name.value
    ensures name.None? || name.value == "" ==> r == Unknown
  {
    match name
    case Some(n) => if n != "" then n else Unknown
    case None => Unknown
  }

  /** What a display record inherits from its row, whatever the viewer: every field
      copied unchanged, except `author`, which is the joined username or the
      placeholder. */
  predicate Describes(d: DisplayLine, row: Row)
  {
    && d.id == row.id
    && d.text == row.text
    && d.author == AuthorLabel(row.profileName)
    && d.authorId == row.authorId
    && d.likes == row.likesCount
    && d.timestamp == row.createdAt
    && d.theme == row.theme
  }

  function ToDisplay(row: Row, isLiked: bool, isBookmarked: bool): DisplayLine
  {
    DisplayLine(row.id, row.text, AuthorLabel(row.profileName), row.authorId,
                row.likesCount, row.createdAt, isLiked, isBookmarked, row.theme)
  }

  /** The identifiers of the fetched rows, in order (`linesData.map(line => line.id)`). */
  function Ids(rows: seq<Row>): (r: seq<Id>)
    ensures |r| == |rows|
    ensures forall i :: 0 <= i < |rows| ==> r[i] == rows[i].id
  {
    if rows == [] then [] else [rows[0].id] + Ids(rows[1..])
  }

  /** The join of LineFeed.tsx and of Profile's "My Lines" tab: one record per row,
      in the rows' order, flagged by membership of its id in the viewer's liked and
      bookmarked id lists. */
  function Assemble(rows: seq<Row>, liked: set<Id>, bookmarked: set<Id>): (r: seq<DisplayLine>)
    ensures |r| == |rows|
    ensures forall i :: 0 <= i < |rows| ==>
      && Describes(r[i], rows[i])
      && (r[i].isLiked <==> rows[i].id in liked)
      && (r[i].isBookmarked <==> rows[i].id in bookmarked)
  {
    if rows == [] then []
    else
      [ToDisplay(rows[0], rows[0].id in liked, rows[0].id in bookmarked)]
      + Assemble(rows[1..], liked, bookmarked)
  }

  /** The join of Profile's "Bookmarked" tab: like Assemble, except that every
      record is marked bookmarked without consulting any lookup. */
  function AssembleBookmarked(rows: seq<Row>, liked: set<Id>): (r: seq<DisplayLine>)
    ensures |r| == |rows|
    ensures forall i :: 0 <= i < |rows| ==>
      && Describes(r[i], rows[i])
      && (r[i].isLiked <==> rows[i].id in liked)
      && r[i].isBookmarked
  {
    if rows == [] then []
    else [ToDisplay(rows[0], rows[0].id in liked, true)] + AssembleBookmarked(rows[1..], liked)
  }

  /** The two joins agree whenever the bookmark lookup does contain every bookmarked
      line: the tab's hard-wired flag then says what the lookup would have said. */
  lemma BookmarkedAgreesWithLookup(rows: seq<Row>, liked: set<Id>, bookmarked: set<Id>)
    requires forall i :: 0 <= i < |rows| ==> rows[i].id in bookmarked
    ensures AssembleBookmarked(rows, liked) == Assemble(rows, liked, bookmarked)
  {
  }

  /** The join commutes with concatenation: assembling two pages separately and
      appending gives the same records as assembling them together, so the order of
      the rows is the order of the records. */
  lemma AssembleAppend(a: seq<Row>, b: seq<Row>, liked: set<Id>, bookmarked: set<Id>)
    ensures Assemble(a + b, liked, bookmarked) == Assemble(a, liked, bookmarked) + Assemble(b, liked, bookmarked)
  {
  }

  /** The rows a membership lookup returns: the line ids of the viewer's pairs in the
      table that are among the ids asked about (`.eq('user_id', u).in('line_id', ids)`). */
  function LookupIds(table: set<(Id, Id)>, viewer: Id, ids: seq<Id>): (r: set<Id>)
    ensures forall l :: l in r <==> (viewer, l) in table && l in ids
  {
    set p | p in table && p.0 == viewer && p.1 in ids :: p.1
  }
}
