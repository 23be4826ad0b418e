/**
 * The operator console (client/src/components/Dashboard.jsx): the status
 * counters over the loaded list, the local status update after a
 * successful PATCH, the handling of request failures (an `Unauthorized`
 * answer logs the operator out), the stored-credentials fallback, and
 * login and logout.
 */
module Dashboard {
  import opened Wrappers
  import opened ClientUtils

  // ---------------------------------------------------------------------------
  // Status counters
  // ---------------------------------------------------------------------------

  const Nuova := "nuova"
  const InLavorazione := "in_lavorazione"
  const Chiusa := "chiusa"

  /** The `totals` record of `stats`. */
  datatype Totals = Totals(nuova: nat, inLavorazione: nat, chiusa: nat)

  /** How many reports carry `status`. */
  function CountStatus(reports: seq<ClientReport>, status: string): nat
  {
    if reports == [] then 0
    else CountStatus(reports[..|reports| - 1], status) + (if reports[|reports| - 1].status == status then 1 else 0)
  }

  /** A count is zero exactly when no report carries that status. */
  lemma {:induction false} CountZeroIffAbsent(reports: seq<ClientReport>, status: string)
    ensures CountStatus(reports, status) == 0 <==> forall r | r in reports :: r.status != status
  {
    if reports != [] {
      var init := reports[..|reports| - 1];
      CountZeroIffAbsent(init, status);
      assert reports == init + [reports[|reports| - 1]];
    }
  }

  /** Each report is counted under at most one of the three statuses, so
      the counters add up to at most the length of the list. */
  lemma {:induction false} CountsBounded(reports: seq<ClientReport>)
    ensures CountStatus(reports, Nuova) + CountStatus(reports, InLavorazione) + CountStatus(reports, Chiusa) <= |reports|
  {
    if reports != [] {
      CountsBounded(reports[..|reports| - 1]);
    }
  }

  /** When every report has one of the three statuses, the counters add up
      to exactly the length of the list. */
  lemma {:induction false} CountsExact(reports: seq<ClientReport>)
    requires forall r | r in reports :: r.status == Nuova || r.status == InLavorazione || r.status == Chiusa
    ensures CountStatus(reports, Nuova) + CountStatus(reports, InLavorazione) + CountStatus(reports, Chiusa) == |reports|
  {
    if reports != [] {
      var init := reports[..|reports| - 1];
      assert forall r | r in init :: r in reports;
      assert reports[|reports| - 1] in reports;
      CountsExact(init);
    }
  }

  /** `stats`: one pass over the list, incrementing the counter of each
      report's status when it is one of the three. */
  method Stats(reports: seq<ClientReport>) returns (totals: Totals)
    ensures totals.nuova == CountStatus(reports, Nuova)
    ensures totals.inLavorazione == CountStatus(reports, InLavorazione)
    ensures totals.chiusa == CountStatus(reports, Chiusa)
  {
    totals := Totals(0, 0, 0);
    for i := 0 to |reports|
      invariant totals.nuova == CountStatus(reports[..i], Nuova)
      invariant totals.inLavorazione == CountStatus(reports[..i], InLavorazione)
      invariant totals.chiusa == CountStatus(reports[..i], Chiusa)
    {
      assert reports[..i + 1][..i] == reports[..i];
      var status := reports[i].status;
      if status == Nuova {
        totals := totals.(nuova := totals.nuova + 1);
      } else if status == InLavorazione {
        totals := totals.(inLavorazione := totals.inLavorazione + 1);
      } else if status == Chiusa {
        totals := totals.(chiusa := totals.chiusa + 1);
      }
    }
    assert reports[..|reports|] == reports;
  }

  // ---------------------------------------------------------------------------
  // Local status update
  // ---------------------------------------------------------------------------

  /** The list after a successful status update: every report with that id
      takes the new status. */
  function WithStatus(reports: seq<ClientReport>, id: string, status: string): (r: seq<ClientReport>)
    ensures |r| == |reports|
    ensures forall i | 0 <= i < |r| && reports[i].id == id :: r[i] == reports[i].(status := status)
    ensures forall i | 0 <= i < |r| && reports[i].id != id :: r[i] == reports[i]
  {
    if reports == [] then []
    else
      var head := if reports[0].id == id then reports[0].(status := status) else reports[0];
      [head] + WithStatus(reports[1..], id, status)
  }

  /** A second update of the same report overrides the first. */
  lemma WithStatusLastWins(reports: seq<ClientReport>, id: string, first: string, second: string)
    ensures WithStatus(WithStatus(reports, id, first), id, second) == WithStatus(reports, id, second)
  {
    var a := WithStatus(WithStatus(reports, id, first), id, second);
    var b := WithStatus(reports, id, second);
    assert forall i | 0 <= i < |a| :: a[i] == b[i];
  }

  /** Setting a report to the status it already has changes nothing. */
  lemma WithStatusUnchanged(reports: seq<ClientReport>, id: string, status: string)
    requires forall r | r in reports && r.id == id :: r.status == status
    ensures WithStatus(reports, id, status) == reports
  {
    var a := WithStatus(reports, id, status);
    forall i | 0 <= i < |a| ensures a[i] == reports[i] {
      assert reports[i] in reports;
    }
  }

  // ---------------------------------------------------------------------------
  // Request failures and stored credentials
  // ---------------------------------------------------------------------------

  const UnauthorizedMessage := "Unauthorized"
  const InvalidCredentialsMessage := "Credenziali non valide."
  const LoadFallbackMessage := "Errore durante caricamento."
  const UpdateFallbackMessage := "Errore aggiornamento stato."
  const MissingCredentialsMessage := "Inserisci username e password."

  /** What a failed request leaves behind: the auth header, the error shown
      and whether the stored credentials are removed. */
  datatype FailureEffect = FailureEffect(authHeader: string, error: string, clearStored: bool)

  /** The `catch` branch of `loadReports` and `handleStatusUpdate`. */
  function OnRequestFailure(authHeader: string, message: string, fallback: string): (r: FailureEffect)
    ensures message == UnauthorizedMessage <==> r.clearStored
    ensures message == UnauthorizedMessage ==> r.authHeader == "" && r.error == InvalidCredentialsMessage
    ensures message != UnauthorizedMessage ==> r.authHeader == authHeader
    ensures message != UnauthorizedMessage && message != "" ==> r.error == message
    ensures message == "" ==> r.error == fallback
  {
    if message == UnauthorizedMessage then FailureEffect("", InvalidCredentialsMessage, true)
    else FailureEffect(authHeader, if message != "" then message else fallback, false)
  }

  /** The `adminAuth` item of local storage: absent, not valid JSON (or
      JSON without properties, such as `null`), or a parsed object whose
      `user` and `authHeader` are the empty string when missing or falsy. */
  datatype StoredAuthItem = Absent | Unparsable | StoredJson(user: string, authHeader: string)

  datatype StoredAuth = StoredAuth(user: string, authHeader: string)

  /** `loadStoredAuth`. */
  function LoadStoredAuth(item: StoredAuthItem): (r: StoredAuth)
    ensures item.StoredJson? ==> r == StoredAuth(item.user, item.authHeader)
    ensures !item.StoredJson? ==> r == StoredAuth("", "")
  {
    match item
    case StoredJson(user, header) => StoredAuth(user, header)
    case _ => StoredAuth("", "")
  }

  // ---------------------------------------------------------------------------
  // The component's state
  // ---------------------------------------------------------------------------

  datatype Filters = Filters(status: string, category: string, q: string)

  class DashboardState {
    var filters: Filters
    var reports: seq<ClientReport>
    var loading: bool
    var error: string
    var authHeader: string
    var loginUser: string
    var loginPass: string
    /** The `adminAuth` item of local storage. */
    var stored: StoredAuthItem

    constructor (item: StoredAuthItem)
      ensures filters == Filters("", "", "") && reports == [] && !loading && error == ""
      ensures authHeader == LoadStoredAuth(item).authHeader
      ensures loginUser == LoadStoredAuth(item).user && loginPass == ""
      ensures stored == item
    {
      filters := Filters("", "", "");
      reports := [];
      loading := false;
      error := "";
      var auth := LoadStoredAuth(item);
      authHeader := auth.authHeader;
      loginUser := auth.user;
      loginPass := "";
      stored := item;
    }

    /** `loadReports`, given the answer to the list request. Without an
        auth header no request is made and nothing changes. */
    method LoadReports(reply: Result<seq<ClientReport>, string>) returns (requested: bool)
      modifies this
      ensures requested <==> old(authHeader) != ""
      ensures !requested ==> reports == old(reports) && error == old(error) && loading == old(loading)
                             && authHeader == old(authHeader) && stored == old(stored)
      ensures requested && reply.Success? ==>
                reports == reply.value && error == "" && authHeader == old(authHeader) && stored == old(stored)
      ensures requested && reply.Failure? ==>
                var effect := OnRequestFailure(old(authHeader), reply.error, LoadFallbackMessage);
                && reports == old(reports) && authHeader == effect.authHeader && error == effect.error
                && stored == (if effect.clearStored then Absent else old(stored))
      ensures requested ==> !loading
      ensures filters == old(filters) && loginUser == old(loginUser) && loginPass == old(loginPass)
    {
      if authHeader == "" {
        return false;
      }
      requested := true;
      loading := true;
      error := "";
      match reply {
        case Success(data) =>
          reports := data;
        case Failure(message) =>
          var effect := OnRequestFailure(authHeader, message, LoadFallbackMessage);
          authHeader := effect.authHeader;
          error := effect.error;
          if effect.clearStored {
            stored := Absent;
          }
      }
      loading := false;
    }

    /** `handleStatusUpdate`, given the answer to the PATCH request. */
    method HandleStatusUpdate(id: string, status: string, reply: Result<(), string>)
      modifies this
      ensures reply.Success? ==>
                reports == WithStatus(old(reports), id, status)
                && error == old(error) && authHeader == old(authHeader) && stored == old(stored)
      ensures reply.Failure? ==>
                var effect := OnRequestFailure(old(authHeader), reply.error, UpdateFallbackMessage);
                && reports == old(reports) && authHeader == effect.authHeader && error == effect.error
                && stored == (if effect.clearStored then Absent else old(stored))
      ensures filters == old(filters) && loading == old(loading)
      ensures loginUser == old(loginUser) && loginPass == old(loginPass)
    {
      match reply {
        case Success(_) =>
          reports := WithStatus(reports, id, status);
        case Failure(message) =>
          var effect := OnRequestFailure(authHeader, message, UpdateFallbackMessage);
          authHeader := effect.authHeader;
          error := effect.error;
          if effect.clearStored {
            stored := Absent;
          }
      }
    }

    /** `handleLogin`, given the header built from the typed credentials
        (empty when either is missing): an empty header shows an error;
        otherwise it is kept and stored, and the password field cleared. */
    method HandleLogin(header: string)
      modifies this
      ensures header == "" ==>
                error == MissingCredentialsMessage && authHeader == old(authHeader)
                && stored == old(stored) && loginPass == old(loginPass)
      ensures header != "" ==>
                error == "" && authHeader == header
                && stored == StoredJson(old(loginUser), header) && loginPass == ""
      ensures reports == old(reports) && filters == old(filters) && loginUser == old(loginUser)
      ensures loading == old(loading)
    {
      error := "";
      if header == "" {
        error := MissingCredentialsMessage;
        return;
      }
      authHeader := header;
      stored := StoredJson(loginUser, header);
      loginPass := "";
    }

    /** `handleLogout`. */
    method HandleLogout()
      modifies this
      ensures authHeader == "" && reports == [] && stored == Absent
      ensures error == old(error) && filters == old(filters) && loginUser == old(loginUser)
      ensures loading == old(loading) && loginPass == old(loginPass)
    {
      authHeader := "";
      reports := [];
      stored := Absent;
    }
  }

  /** After logout the next load makes no request. */
  method LogoutStopsLoading(state: DashboardState, reply: Result<seq<ClientReport>, string>)
    returns (requested: bool)
    modifies state
    ensures !requested && state.reports == [] && state.authHeader == ""
  {
    state.HandleLogout();
    requested := state.LoadReports(reply);
  }
}
