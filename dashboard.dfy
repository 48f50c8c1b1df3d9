/**
 * The dashboard page (app/dashboard/page.tsx): the stored biography row rendered as the same
 * document the wizard builds, the page's `icp`, `biography` and `generatingIcp` state, and the
 * `generateIcp` sequence over the remote profile and history. Every remote call's outcome is a
 * parameter; the endpoint's reply is an abstract response.
 */
module Dashboard {
  import opened Options
  import opened StringOps
  import opened Biography
  import opened IcpHistory
  import Endpoint = GenerateIcp

  // ---------------------------------------------------------------------------------------------
  // The row formatter. The page holds two copies of it (loading the page and generating the ICP);
  // both are this function.

  /** An optional column's entry: a labelled line when the column is truthy, otherwise null. */
  function ColumnEntry(f: Field, column: Option<string>): Option<string> {
    if Truthy(column) then Some(Line(f, column.value)) else None
  }

  /** The array literal built from a stored row, before `filter(Boolean)`. */
  function RowEntries(row: BiographyRow): seq<Option<string>> {
    [ Some(Line(NameAndRole, row.nameAndRole)),
      Some(Line(CompanyName, row.companyName)),
      Some(Line(Niche, row.niche)),
      Some(Line(HelpDescription, row.helpDescription)),
      Some(Line(Services, row.services)),
      Some(Line(Experience, row.experience)),
      Some(Line(Achievements, row.achievements)),
      ColumnEntry(Recognition, row.recognition),
      Some(Line(Differential, row.differential)),
      Some(Line(BestClients, row.bestClients)),
      Some(Line(PreferredClients, row.preferredClients)),
      ColumnEntry(AvoidClients, row.avoidClients),
      ColumnEntry(AdditionalInfo, row.additionalInfo) ]
  }

  /** The document rendered from a stored row: the truthy entries joined by newlines. */
  function FormatRow(row: BiographyRow): string {
    Join(KeepTruthy(RowEntries(row)), '\n')
  }

  /** The row's array literal is the wizard's array literal for the row's answers. */
  lemma RowEntriesMatchAnswerEntries(row: BiographyRow)
    ensures RowEntries(row) == AnswerEntries(FromRow(row))
  {
  }

  /**
   * A stored row renders to the wizard's document for the answers it holds: the same labels in
   * the same order, a null or empty optional column contributing no line.
   */
  lemma {:induction false} FormatRowMatchesWizard(row: BiographyRow)
    ensures FormatRow(row) == FormatBiography(FromRow(row))
    ensures FormatRow(row) == Join(ShownLines(FromRow(row), Order), '\n')
  {
    RowEntriesMatchAnswerEntries(row);
    FormattedLines(FromRow(row));
  }

  /** Formatting the row saved from a set of answers gives the wizard's document for those answers. */
  lemma {:induction false} SavedRowRoundTrip(a: Answers, userId: string, updatedAt: string)
    ensures FormatRow(ToRow(a, userId, updatedAt)) == FormatBiography(a)
  {
    FormatRowMatchesWizard(ToRow(a, userId, updatedAt));
  }

  /** A stored biography always renders to a non-empty document. */
  lemma {:induction false} FormatRowNonEmpty(row: BiographyRow)
    ensures FormatRow(row) != ""
  {
    FormatRowMatchesWizard(row);
    BiographyNonEmpty(FromRow(row));
  }

  // ---------------------------------------------------------------------------------------------
  // Remote state and remote outcomes.

  datatype DbError = DbError(code: string, message: string)

  /** A query's `{ data, error }` pair. */
  datatype QueryResult<T> = QueryResult(data: Option<T>, error: Option<DbError>)

  /** The error code the page treats as "no row" when loading the biography. */
  const NoRowsCode := "PGRST116"

  /** The signed-in user's `profiles` row, reduced to its `icp` column. */
  class ProfileStore {
    var icp: Option<string>

    constructor (icp: Option<string>)
      ensures this.icp == icp
    {
      this.icp := icp;
    }
  }

  /** `response.ok`. */
  predicate IsOk(status: nat) {
    200 <= status <= 299
  }

  /**
   * The client's reading of the endpoint's reply: a non-ok status or a body without
   * `success: true` is a failure; otherwise the reply's `icp`.
   */
  function ReplyIcp(reply: Endpoint.Response): (r: Option<string>)
    ensures r.Some? <==> IsOk(reply.status) && reply.body.SuccessBody?
    ensures r.Some? ==> r.value == reply.body.icp
  {
    if !IsOk(reply.status) then None
    else match reply.body
      case SuccessBody(icp) => Some(icp)
      case _ => None
  }

  /** The remote calls `generateIcp` makes, in the order it makes them. */
  datatype RemoteCall = FetchBiography | RequestIcp(biography: string) | UpdateProfile(icp: string) | AppendHistory(icp: string)

  /** Which message the user is shown at the end of `generateIcp`. */
  datatype GenerateOutcome = BiographyMissing | GenerationFailed | Generated(icp: string, historyWarning: bool)

  class DashboardPage {
    var icp: string
    var biography: string
    var generatingIcp: bool
    var userId: Option<string>

    constructor ()
      ensures icp == "" && biography == "" && !generatingIcp && userId == None
    {
      icp := "";
      biography := "";
      generatingIcp := false;
      userId := None;
    }

    /** The "Gerar" button is enabled only while not generating and once a biography is shown. */
    predicate CanGenerate()
      reads this
      ensures CanGenerate() <==> !generatingIcp && biography != ""
    {
      !(generatingIcp || biography == "")
    }

    /** The wizard's completion callback shows the emitted document. */
    method OnBiographyComplete(document: string)
      modifies this
      ensures biography == document
      ensures icp == old(icp) && generatingIcp == old(generatingIcp) && userId == old(userId)
      ensures CanGenerate() <==> !generatingIcp && document != ""
    {
      biography := document;
    }

    /**
     * Loading the page: the user's id, then the profile's `icp` (null read as ""), then the stored
     * biography's document. A profile error stops before anything but the id is set; a biography
     * error other than "no rows" stops after the ICP is set.
     */
    method LoadUserData(user: Option<string>, profile: QueryResult<Option<string>>, stored: QueryResult<BiographyRow>)
      modifies this
      ensures generatingIcp == old(generatingIcp)
      ensures user == None ==> userId == old(userId) && icp == old(icp) && biography == old(biography)
      ensures user.Some? ==> userId == user
      ensures user.Some? && profile.error.None? && profile.data.Some? ==> icp == OrEmpty(profile.data.value)
      ensures user == None || profile.error.Some? || profile.data == None ==> icp == old(icp)
      ensures user.Some? && profile.error.None?
              && (stored.error.None? || stored.error.value.code == NoRowsCode) && stored.data.Some?
              ==> biography == FormatRow(stored.data.value)
      ensures user == None || profile.error.Some?
              || (stored.error.Some? && stored.error.value.code != NoRowsCode) || stored.data == None
              ==> biography == old(biography)
      // A stored biography enables "Gerar" unless a generation is running.
      ensures user.Some? && profile.error.None?
              && (stored.error.None? || stored.error.value.code == NoRowsCode) && stored.data.Some?
              ==> (CanGenerate() <==> !generatingIcp)
    {
      if user == None {
        return;
      }
      userId := user;
      if profile.error.Some? {
        return;
      }
      if profile.data.Some? {
        icp := OrEmpty(profile.data.value);
      }
      if stored.error.Some? && stored.error.value.code != NoRowsCode {
        return;
      }
      if stored.data.Some? {
        FormatRowNonEmpty(stored.data.value);
        biography := FormatRow(stored.data.value);
      }
    }

    /**
     * `generateIcp`: fetch the stored biography, request the ICP, write it to the profile, then
     * append it to the history. Each failure stops the sequence before the next call; a failed
     * history append only adds a warning. `generatingIcp` is reset on every path.
     */
    method GenerateIcp(profile: ProfileStore, history: HistoryTable, stored: QueryResult<BiographyRow>,
                       reply: Endpoint.Response, updateError: Option<DbError>,
                       lookup: SessionLookup, insert: InsertOutcome)
      returns (outcome: GenerateOutcome, calls: seq<RemoteCall>)
      modifies this, profile, history
      ensures !generatingIcp
      ensures biography == old(biography) && userId == old(userId)
      // "Gerar" is enabled again on every path exactly when a biography is shown.
      ensures CanGenerate() <==> biography != ""
      ensures |calls| >= 1 && calls[0] == FetchBiography
      // No stored biography (or the fetch failed): nothing else happens.
      ensures stored.error.Some? || stored.data == None ==>
        && outcome == (if stored.error.Some? then GenerationFailed else BiographyMissing)
        && calls == [FetchBiography]
        && icp == old(icp) && profile.icp == old(profile.icp) && history.entries == old(history.entries)
      // The request carries the stored biography's document.
      ensures stored.error == None && stored.data.Some? ==>
        |calls| >= 2 && calls[1] == RequestIcp(FormatRow(stored.data.value))
      // A rejected reply or a failed profile update leaves profile, history and page unchanged.
      ensures outcome == GenerationFailed ==>
        icp == old(icp) && profile.icp == old(profile.icp) && history.entries == old(history.entries)
      ensures stored.error == None && stored.data.Some? && ReplyIcp(reply) == None ==>
        outcome == GenerationFailed && |calls| == 2
      ensures stored.error == None && stored.data.Some? && ReplyIcp(reply).Some? && updateError.Some? ==>
        outcome == GenerationFailed && calls[2..] == [UpdateProfile(ReplyIcp(reply).value)]
      // Success: the profile is written before the history is appended to, and the page shows the ICP.
      ensures outcome.Generated? <==> stored.error == None && stored.data.Some? && ReplyIcp(reply).Some? && updateError == None
      ensures outcome.Generated? ==>
        && outcome.icp == ReplyIcp(reply).value
        && |calls| == 4 && calls[2] == UpdateProfile(outcome.icp) && calls[3] == AppendHistory(outcome.icp)
        && profile.icp == Some(outcome.icp) && icp == outcome.icp
        && outcome.historyWarning == SaveResult(outcome.icp, lookup, insert).NotSaved?
        && history.entries == old(history.entries)
             + (if outcome.historyWarning then [] else [SaveResult(outcome.icp, lookup, insert).entry])
    {
      generatingIcp := true;
      calls := [FetchBiography];
      if stored.error.Some? {
        outcome := GenerationFailed;
      } else if stored.data == None {
        outcome := BiographyMissing;
      } else {
        var document := FormatRow(stored.data.value);
        calls := calls + [RequestIcp(document)];
        var accepted := ReplyIcp(reply);
        if accepted == None {
          outcome := GenerationFailed;
        } else {
          var generated := accepted.value;
          calls := calls + [UpdateProfile(generated)];
          if updateError.Some? {
            outcome := GenerationFailed;
          } else {
            profile.icp := Some(generated);
            calls := calls + [AppendHistory(generated)];
            var saved := history.SaveIcpToHistory(generated, lookup, insert);
            icp := generated;
            outcome := Generated(generated, saved.NotSaved?);
          }
        }
      }
      generatingIcp := false;
    }
  }

  // ---------------------------------------------------------------------------------------------
  // The page together with the endpoint.

  /** The page never sends an empty biography, so the endpoint's 400 branch is unreachable from it. */
  lemma {:induction false} StoredBiographyNeverRejected(row: BiographyRow, apiKey: Option<string>, prompt: string, u: Endpoint.Upstream)
    requires Endpoint.KeyConfigured(apiKey)
    ensures var h := Endpoint.Post(apiKey, prompt, Endpoint.Parsed(Endpoint.Text(FormatRow(row))), u);
      h.request.Some? && h.response.status != 400
  {
    FormatRowNonEmpty(row);
  }

  /** A page showing a stored row's document, and not generating, has "Gerar" enabled. */
  lemma {:induction false} StoredRowEnablesGenerate(page: DashboardPage, row: BiographyRow)
    requires page.biography == FormatRow(row) && !page.generatingIcp
    ensures page.CanGenerate()
  {
    FormatRowNonEmpty(row);
  }

  /** A page showing the wizard's emitted document, and not generating, has "Gerar" enabled. */
  lemma {:induction false} WizardDocumentEnablesGenerate(page: DashboardPage, a: Answers)
    requires page.biography == FormatBiography(a) && !page.generatingIcp
    ensures page.CanGenerate()
  {
    BiographyNonEmpty(a);
  }

  /** As written, a blank completion reaches the page as an accepted, empty ICP. */
  lemma BlankIcpAcceptedAsWritten(apiKey: Option<string>, p: string, b: string, c: string)
    requires Endpoint.KeyConfigured(apiKey) && b != "" && c != "" && AllSpace(c)
    ensures ReplyIcp(Endpoint.Post(apiKey, p, Endpoint.Parsed(Endpoint.Text(b)),
                                   Endpoint.Replied(Some(c))).response) == Some("")
  {
    Endpoint.BlankContentAcceptedAsWritten(apiKey, p, b, c);
  }

  /** With the intended content check, an ICP the page accepts is never empty. */
  lemma IntendedAcceptedIcpNonEmpty(apiKey: Option<string>, prompt: string, body: Endpoint.RequestBody, u: Endpoint.Upstream)
    ensures var r := ReplyIcp(Endpoint.PostIntended(apiKey, prompt, body, u).response);
      r.Some? ==> r.value != ""
  {
    Endpoint.IntendedIcpNonEmpty(apiKey, prompt, body, u);
  }
}
