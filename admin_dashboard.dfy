/** The admin dashboard (`src/app/admin/dashboard/page.tsx`): the session
    guard run on mount, the loading of users and beta codes, logout, and the
    values the page derives for display — code counts, the truncated code
    table, fallback labels and the recent-searches table body. */
module AdminDashboard {
  import opened Common
  import opened Text
  import opened Browser

  datatype User = User(
    id: int,
    email: string,
    name: string,
    company: Option<string>,
    betaCode: string,
    isActive: bool,
    createdAt: string)

  datatype BetaCode = BetaCode(
    id: int,
    code: string,
    isUsed: bool,
    usedByUserId: Option<int>,
    createdAt: string,
    usedAt: Option<string>)

  datatype SearchUser = SearchUser(id: int, email: string, name: string)

  /** One recent search as the metrics endpoint reports it (cost, dates and
      the remaining counters are not modelled). */
  datatype RecentSearch = RecentSearch(
    id: int,
    user: Option<SearchUser>,
    problemDescription: string,
    businessType: Option<string>,
    resultCountReturned: int,
    tokensUsed: int,
    searchDurationMs: Option<int>)

  // ---------------------------------------------------------------------
  // Session guard and logout
  // ---------------------------------------------------------------------

  /** Both the admin profile and the admin token are stored and non-empty. */
  predicate AdminSessionStored(store: map<string, string>)
  {
    && "admin" in store && store["admin"] != ""
    && "admin_token" in store && store["admin_token"] != ""
  }

  // ---------------------------------------------------------------------
  // Beta codes
  // ---------------------------------------------------------------------

  /** `betaCodes.filter(code => code.is_used)`, order kept. */
  function UsedCodes(codes: seq<BetaCode>): (r: seq<BetaCode>)
    ensures |r| <= |codes|
    ensures forall c :: c in r <==> c in codes && c.isUsed
  {
    if codes == [] then []
    else (if codes[0].isUsed then [codes[0]] else []) + UsedCodes(codes[1..])
  }

  /** `betaCodes.filter(code => !code.is_used)`, order kept. */
  function AvailableCodes(codes: seq<BetaCode>): (r: seq<BetaCode>)
    ensures |r| <= |codes|
    ensures forall c :: c in r <==> c in codes && !c.isUsed
  {
    if codes == [] then []
    else (if codes[0].isUsed then [] else [codes[0]]) + AvailableCodes(codes[1..])
  }

  /** The used and the available codes split the list: together they hold
      every code exactly as often as the list does. */
  lemma {:induction false} CodesPartition(codes: seq<BetaCode>)
    ensures multiset(UsedCodes(codes)) + multiset(AvailableCodes(codes)) == multiset(codes)
    ensures |UsedCodes(codes)| + |AvailableCodes(codes)| == |codes|
  {
    if codes != [] {
      CodesPartition(codes[1..]);
      assert codes == [codes[0]] + codes[1..];
    }
  }

  /** The three code counters the page shows. */
  datatype CodeCounts = CodeCounts(used: nat, available: nat, total: nat)

  /** The counters are the sizes of the two filters, and used plus
      available is always the total. */
  function Counts(codes: seq<BetaCode>): (r: CodeCounts)
    ensures r.used == |UsedCodes(codes)| && r.available == |AvailableCodes(codes)|
    ensures r.total == |codes|
    ensures r.used + r.available == r.total
    ensures r.used == 0 <==> forall c :: c in codes ==> !c.isUsed
  {
    CodesPartition(codes);
    var used := UsedCodes(codes);
    assert used != [] ==> used[0] in used;
    CodeCounts(|used|, |AvailableCodes(codes)|, |codes|)
  }

  /** At most this many codes are listed in the table. */
  const CodeTableLimit: nat := 20

  /** `betaCodes.slice(0, 20)`: the first min(20, n) codes, in order. */
  function ShownCodes(codes: seq<BetaCode>): (r: seq<BetaCode>)
    ensures |r| == if |codes| < CodeTableLimit then |codes| else CodeTableLimit
    ensures forall i :: 0 <= i < |r| ==> r[i] == codes[i]
  {
    if |codes| < CodeTableLimit then codes else codes[..CodeTableLimit]
  }

  /** The note under the table, present only when codes were left out. */
  function OverflowNote(codes: seq<BetaCode>): (r: Option<string>)
    ensures r.Some? <==> |ShownCodes(codes)| < |codes|
    ensures r.Some? ==> r.value == "Showing first 20 codes of " + NatToString(|codes|) + " total"
  {
    if |codes| > CodeTableLimit then Some("Showing first 20 codes of " + NatToString(|codes|) + " total") else None
  }

  /** The status cell of a code. */
  function StatusLabel(code: BetaCode): (r: string)
    ensures r == "Used" <==> code.isUsed
    ensures r == "Available" <==> !code.isUsed
  {
    if code.isUsed then "Used" else "Available"
  }

  /** The "Used By" cell: "User #id" for a truthy id, "-" otherwise (an id
      of 0 counts as missing). */
  function UsedByLabel(userId: Option<int>): (r: string)
    ensures r == "-" <==> !NumberTruthy(userId)
    ensures NumberTruthy(userId) ==> r == "User #" + IntToString(userId.value)
  {
    if NumberTruthy(userId) then "User #" + IntToString(userId.value) else "-"
  }

  /** The company cell of the users table. */
  function CompanyLabel(company: Option<string>): (r: string)
    ensures company.Some? && company.value != "" ==> r == company.value
    ensures company.None? || company.value == "" ==> r == "-"
  {
    StringOr(company, "-")
  }

  // ---------------------------------------------------------------------
  // Recent searches
  // ---------------------------------------------------------------------

  /** The business cell of a recent search. */
  function BusinessLabel(businessType: Option<string>): (r: string)
    ensures businessType.Some? && businessType.value != "" ==> r == businessType.value
    ensures businessType.None? || businessType.value == "" ==> r == "N/A"
  {
    StringOr(businessType, "N/A")
  }

  /** The duration cell: "Nms" for a truthy duration, "N/A" otherwise. */
  function DurationLabel(ms: Option<int>): (r: string)
    ensures r == "N/A" <==> !NumberTruthy(ms)
    ensures NumberTruthy(ms) ==> r == IntToString(ms.value) + "ms"
  {
    if NumberTruthy(ms) then
      var r := IntToString(ms.value) + "ms";
      assert r[|r| - 1] == 's';
      r
    else "N/A"
  }

  /** The user cell: "name (email)" for a known user, else "Anonymous". */
  function UserLabel(user: Option<SearchUser>): (r: string)
    ensures user.Some? ==> r == user.value.name + " (" + user.value.email + ")"
    ensures user.None? ==> r == "Anonymous"
  {
    match user
    case Some(u) => u.name + " (" + u.email + ")"
    case None => "Anonymous"
  }

  datatype SearchRow = SearchRow(user: string, problem: string, business: string, results: int, tokens: int, duration: string)

  function Row(search: RecentSearch): SearchRow
  {
    SearchRow(UserLabel(search.user), search.problemDescription, BusinessLabel(search.businessType),
              search.resultCountReturned, search.tokensUsed, DurationLabel(search.searchDurationMs))
  }

  /** What the recent-searches table body shows. */
  datatype SearchesBody = LoadingRow | NoSearchesRow | SearchRows(rows: seq<SearchRow>)

  /** A loading row while the metrics load; otherwise "No searches yet" for
      an empty list; otherwise one row per search, in the order received. */
  function RecentSearchesBody(metricsLoading: bool, searches: seq<RecentSearch>): (r: SearchesBody)
    ensures r == LoadingRow <==> metricsLoading
    ensures r == NoSearchesRow <==> !metricsLoading && searches == []
    ensures r.SearchRows? ==> |r.rows| == |searches| > 0
    ensures r.SearchRows? ==> forall i :: 0 <= i < |searches| ==> r.rows[i] == Row(searches[i])
  {
    if metricsLoading then LoadingRow
    else if searches == [] then NoSearchesRow
    else SearchRows(seq(|searches|, i requires 0 <= i < |searches| => Row(searches[i])))
  }

  // ---------------------------------------------------------------------
  // Component state
  // ---------------------------------------------------------------------

  const LoadFailedMessage: string := "Failed to load data"

  class AdminDashboardPage {
    var users: seq<User>
    var betaCodes: seq<BetaCode>
    var loading: bool
    var error: string
    var admin: Option<string>

    constructor ()
      ensures users == [] && betaCodes == [] && loading && error == "" && admin == None
    {
      users := [];
      betaCodes := [];
      loading := true;
      error := "";
      admin := None;
    }

    /** The mount effect: without a stored admin profile and token the page
        sends the browser to the admin login and loads nothing; otherwise it
        keeps the stored profile and goes on to load its data. */
    method Mount(window: Window) returns (proceed: bool)
      modifies this`admin, window
      ensures proceed <==> AdminSessionStored(old(window.localStorage))
      ensures !proceed ==> window.location == "/admin/login" && window.localStorage == old(window.localStorage) && admin == old(admin)
      ensures proceed ==> admin == Some(old(window.localStorage)["admin"]) && unchanged(window)
    {
      var adminData := window.GetItem("admin");
      var adminToken := window.GetItem("admin_token");
      if adminData.None? || adminData.value == "" || adminToken.None? || adminToken.value == "" {
        window.Navigate("/admin/login");
        return false;
      }
      admin := adminData;
      proceed := true;
    }

    /** `loadData`, the replies of the users and beta-codes endpoints given:
        an ok reply replaces its list, a refused one is ignored, and an
        exception sets the error and skips the rest; loading ends. */
    method LoadData(usersReply: Reply<seq<User>>, codesReply: Reply<seq<BetaCode>>)
      modifies this`users, this`betaCodes, this`error, this`loading
      ensures !loading
      ensures users == if usersReply.Ok? then usersReply.body else old(users)
      ensures usersReply.Threw? ==> error == LoadFailedMessage && betaCodes == old(betaCodes)
      ensures !usersReply.Threw? ==>
        && betaCodes == (if codesReply.Ok? then codesReply.body else old(betaCodes))
        && error == (if codesReply.Threw? then LoadFailedMessage else old(error))
    {
      match usersReply {
        case Ok(list) => users := list;
        case NotOk(_, _) =>
        case Threw(_) =>
          error := LoadFailedMessage;
          loading := false;
          return;
      }
      match codesReply {
        case Ok(list) => betaCodes := list;
        case NotOk(_, _) =>
        case Threw(_) => error := LoadFailedMessage;
      }
      loading := false;
    }

    /** `logout`: both admin entries are removed, so the session guard fails
        from now on, and the browser goes to the admin login. */
    method Logout(window: Window)
      modifies window
      ensures window.localStorage == old(window.localStorage) - {"admin", "admin_token"}
      ensures window.location == "/admin/login"
      ensures !AdminSessionStored(window.localStorage)
    {
      window.RemoveItem("admin");
      window.RemoveItem("admin_token");
      window.Navigate("/admin/login");
    }
  }
}
