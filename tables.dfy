/** The hosted store as the front-end sees it: the `lines` table as a sequence of
    joined rows (already ordered newest first by the store), and the `likes` and
    `bookmarks` tables as sets of (user_id, line_id) pairs. */
module Tables {
  import opened Records

  type Pair = (Id, Id)

  datatype Table = Likes | Bookmarks

  datatype Op = Insert | Delete

  /** One insert or delete of a (user, line) pair, as LineCard issues it. */
  datatype Mutation = Mutation(table: Table, op: Op, pair: Pair)

  /** How a remote call ends: it completes, it resolves with an error object (the
      client does not throw for these), or it throws (a network failure). */
  datatype Outcome = Completed | ErrorReturned | Threw

  /** Which awaited call of a page fetch rejects (a network failure), if any: one of
      the row queries, or the pair of membership lookups awaited together. */
  datatype Rejection = NoRejection | QueryRejected | LookupsRejected

  /** The effect of a completed mutation on its table. A duplicate insert and the
      delete of an absent pair leave the set as it was. */
  function Perform(s: set<Pair>, op: Op, p: Pair): (r: set<Pair>)
    ensures p in r <==> op == Insert
    ensures forall q :: q != p ==> (q in r <==> q in s)
  {
    match op
    case Insert => s + {p}
    case Delete => s - {p}
  }

  /** The toggle a like or bookmark button performs: delete the pair when the
      displayed flag says it is present, insert it otherwise. */
  function Toggle(s: set<Pair>, p: Pair, shownPresent: bool): set<Pair>
  {
    Perform(s, if shownPresent then Delete else Insert, p)
  }

  /** With the flag in step with the table, a toggle flips the membership of exactly
      its own pair. */
  lemma ToggleFlipsExactlyOnePair(s: set<Pair>, p: Pair)
    ensures (p in Toggle(s, p, p in s)) == (p !in s)
    ensures forall q :: q != p ==> (q in Toggle(s, p, p in s) <==> q in s)
  {
  }

  /** Two toggles, with the flag refreshed from the table in between, restore the
      table. */
  lemma ToggleTwiceRestores(s: set<Pair>, p: Pair)
    ensures var t := Toggle(s, p, p in s); Toggle(t, p, p in t) == s
  {
    var t := Toggle(s, p, p in s);
    var u := Toggle(t, p, p in t);
    assert forall q :: q in u <==> q in s;
  }

  class Store {
    var lines: seq<Row>
    var likes: set<Pair>
    var bookmarks: set<Pair>

    constructor (lines: seq<Row>, likes: set<Pair>, bookmarks: set<Pair>)
      ensures this.lines == lines && this.likes == likes && this.bookmarks == bookmarks
    {
      this.lines := lines;
      this.likes := likes;
      this.bookmarks := bookmarks;
    }

    /** Runs one mutation; only a completed call changes anything, and then only the
        table the mutation names. */
    method Execute(m: Mutation, outcome: Outcome)
      modifies this
      ensures lines == old(lines)
      ensures likes == if outcome == Completed && m.table == Likes
                       then Perform(old(likes), m.op, m.pair) else old(likes)
      ensures bookmarks == if outcome == Completed && m.table == Bookmarks
                           then Perform(old(bookmarks), m.op, m.pair) else old(bookmarks)
    {
      if outcome == Completed {
        match m.table
        case Likes => likes := Perform(likes, m.op, m.pair);
        case Bookmarks => bookmarks := Perform(bookmarks, m.op, m.pair);
      }
    }
  }
}
