/**
 * Recording a generated ICP in the `icp_history` table (lib/icp-history.ts). The session lookup
 * and the insert are calls into the hosted database; their outcomes are parameters.
 */
module IcpHistory {
  import opened Options

  datatype Session = Session(userId: string)

  /** What the session lookup returns: a session or none, and possibly an error. */
  datatype SessionLookup = SessionLookup(session: Option<Session>, error: Option<string>)

  /** What the database answers to the insert: the id and timestamp it assigned, or an error. */
  datatype InsertOutcome = Inserted(id: string, createdAt: string) | InsertFailed(message: string)

  /** A row of `icp_history`. */
  datatype Entry = Entry(id: string, userId: string, content: string, createdAt: string)

  /** `{ success: true, data }` or `{ success: false, error }`. */
  datatype HistoryResult = Saved(entry: Entry) | NotSaved(error: string)

  const NoSessionMessage := "No session found"

  /**
   * The result the function returns, as a function of the remote outcomes. A session error takes
   * precedence over a missing session; the insert's outcome matters only once a session exists.
   */
  function SaveResult(content: string, lookup: SessionLookup, insert: InsertOutcome): (r: HistoryResult)
    ensures r.Saved? <==> lookup.error == None && lookup.session.Some? && insert.Inserted?
    ensures r.Saved? ==> r.entry == Entry(insert.id, lookup.session.value.userId, content, insert.createdAt)
    ensures lookup.error.Some? ==> r == NotSaved(lookup.error.value)
    ensures lookup.error == None && lookup.session == None ==> r == NotSaved(NoSessionMessage)
    ensures lookup.error == None && lookup.session.Some? && insert.InsertFailed? ==> r == NotSaved(insert.message)
  {
    if lookup.error.Some? then NotSaved(lookup.error.value)
    else if lookup.session == None then NotSaved(NoSessionMessage)
    else match insert
      case InsertFailed(message) => NotSaved(message)
      case Inserted(id, createdAt) => Saved(Entry(id, lookup.session.value.userId, content, createdAt))
  }

  /** Without a usable session the insert is never attempted: its outcome cannot affect the result. */
  lemma SessionFailureSkipsInsert(content: string, lookup: SessionLookup, i1: InsertOutcome, i2: InsertOutcome)
    requires lookup.error.Some? || lookup.session == None
    ensures SaveResult(content, lookup, i1) == SaveResult(content, lookup, i2)
    ensures SaveResult(content, lookup, i1).NotSaved?
  {
  }

  /** The `icp_history` table, seen from the signed-in user: an append-only log. */
  class HistoryTable {
    var entries: seq<Entry>

    constructor (entries: seq<Entry>)
      ensures this.entries == entries
    {
      this.entries := entries;
    }

    /**
     * `saveIcpToHistory`: checks the session, inserts one row for the session's user and reports
     * the outcome; every failure becomes a `NotSaved` result and leaves the table unchanged.
     */
    method SaveIcpToHistory(content: string, lookup: SessionLookup, insert: InsertOutcome)
      returns (r: HistoryResult)
      modifies this
      ensures r == SaveResult(content, lookup, insert)
      ensures r.Saved? ==> entries == old(entries) + [r.entry]
      ensures r.NotSaved? ==> entries == old(entries)
    {
      if lookup.error.Some? {
        return NotSaved(lookup.error.value);
      }
      if lookup.session == None {
        return NotSaved(NoSessionMessage);
      }
      var user := lookup.session.value.userId;
      match insert {
        case InsertFailed(message) =>
          return NotSaved(message);
        case Inserted(id, createdAt) =>
          var row := Entry(id, user, content, createdAt);
          entries := entries + [row];
          return Saved(row);
      }
    }
  }
}
