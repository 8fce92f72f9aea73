/**
 * The admin dashboard: the client-side search and status filter over
 * applications, the shared-secret gate with its lock button, the list refresh
 * with its null-to-empty defaulting, the delete and create handlers, and the
 * request for a signed download link.
 */
module AdminPanel {
  import opened Wrappers
  import opened Text
  import opened Json
  import opened Records
  import Http
  import SignedUrl

  /** The status filter value that imposes no constraint. */
  const AllStatuses := "all"
  /** The URL fragment that asks for the secret prompt. */
  const SecretMarker := "#admin-secret-panel"
  /** The lifetime, in seconds, the dashboard asks for a download link. */
  const LinkLifetime := 120

  // ---------------------------------------------------------------------------
  // Search and status filter
  // ---------------------------------------------------------------------------

  /** `search.trim().toLowerCase()`. */
  function SearchQuery(search: string): string {
    Lower(Trim(search))
  }

  /** `field && field.toLowerCase().includes(q)`: a present, non-empty field whose lower-cased text holds `q`. */
  predicate FieldMatches(field: Option<string>, q: string) {
    field.Some? && field.value != "" && Contains(Lower(field.value), q)
  }

  /** The search half of the filter: an empty query, or a match in name, email or position. */
  predicate MatchesSearch(app: Application, q: string) {
    q == "" || FieldMatches(app.fullName, q) || FieldMatches(app.email, q) || FieldMatches(app.position, q)
  }

  /** The status half of the filter: `'all'`, or exactly the application's status. */
  predicate MatchesStatus(app: Application, filterStatus: string) {
    filterStatus == AllStatuses || app.status == Some(filterStatus)
  }

  predicate Keeps(app: Application, q: string, filterStatus: string) {
    MatchesSearch(app, q) && MatchesStatus(app, filterStatus)
  }

  /** `applications.filter(...)` for an already normalised query. */
  function Select(apps: seq<Application>, q: string, filterStatus: string): (r: seq<Application>)
    ensures |r| <= |apps|
    ensures forall a :: a in r <==> a in apps && Keeps(a, q, filterStatus)
    ensures forall a :: multiset(r)[a] == if Keeps(a, q, filterStatus) then multiset(apps)[a] else 0
  {
    if apps == [] then []
    else
      var rest := Select(apps[1..], q, filterStatus);
      assert apps == [apps[0]] + apps[1..];
      assert forall a :: a in apps <==> a == apps[0] || a in apps[1..];
      if Keeps(apps[0], q, filterStatus) then [apps[0]] + rest else rest
  }

  /**
   * `filteredApps`: an application is kept exactly when the trimmed, lower-cased
   * search is empty or occurs in its lower-cased name, email or position, and
   * the status filter is `'all'` or equals its status.
   */
  function FilteredApps(apps: seq<Application>, search: string, filterStatus: string): (r: seq<Application>)
    ensures forall a :: a in r <==>
      && a in apps
      && (SearchQuery(search) == ""
          || FieldMatches(a.fullName, SearchQuery(search))
          || FieldMatches(a.email, SearchQuery(search))
          || FieldMatches(a.position, SearchQuery(search)))
      && (filterStatus == AllStatuses || a.status == Some(filterStatus))
    ensures forall a :: multiset(r)[a] == if Keeps(a, SearchQuery(search), filterStatus) then multiset(apps)[a] else 0
  {
    Select(apps, SearchQuery(search), filterStatus)
  }

  /** `xs` is `ys` with some elements left out, in the same order. */
  predicate IsSubsequence<T(==)>(xs: seq<T>, ys: seq<T>)
    decreases |ys|
  {
    xs == [] || (ys != [] && ((xs[0] == ys[0] && IsSubsequence(xs[1..], ys[1..])) || IsSubsequence(xs, ys[1..])))
  }

  lemma {:induction false} SelectIsSubsequence(apps: seq<Application>, q: string, filterStatus: string)
    ensures IsSubsequence(Select(apps, q, filterStatus), apps)
    decreases |apps|
  {
    if apps != [] {
      SelectIsSubsequence(apps[1..], q, filterStatus);
      var rest := Select(apps[1..], q, filterStatus);
      if Keeps(apps[0], q, filterStatus) {
        assert ([apps[0]] + rest)[1..] == rest;
      }
    }
  }

  /** The filter keeps applications in their original order and invents none. */
  lemma FilteredIsSubsequence(apps: seq<Application>, search: string, filterStatus: string)
    ensures IsSubsequence(FilteredApps(apps, search, filterStatus), apps)
  {
    SelectIsSubsequence(apps, SearchQuery(search), filterStatus);
  }

  lemma {:induction false} SelectKeepsAll(apps: seq<Application>, q: string, filterStatus: string)
    requires forall a :: a in apps ==> Keeps(a, q, filterStatus)
    ensures Select(apps, q, filterStatus) == apps
    decreases |apps|
  {
    if apps != [] {
      assert apps[0] in apps;
      assert forall a :: a in apps[1..] ==> a in apps;
      SelectKeepsAll(apps[1..], q, filterStatus);
      assert apps == [apps[0]] + apps[1..];
    }
  }

  /** A blank search with status `'all'` shows every application. */
  lemma BlankSearchShowsAll(apps: seq<Application>, search: string)
    requires AllWhite(search)
    ensures FilteredApps(apps, search, AllStatuses) == apps
  {
    TrimEmptyIffWhite(search);
    SelectKeepsAll(apps, SearchQuery(search), AllStatuses);
  }

  /** The search ignores the letter case of the query. */
  lemma SearchIgnoresCase(apps: seq<Application>, search1: string, search2: string, filterStatus: string)
    requires Lower(search1) == Lower(search2)
    ensures FilteredApps(apps, search1, filterStatus) == FilteredApps(apps, search2, filterStatus)
  {
    LowerTrimCommute(search1);
    LowerTrimCommute(search2);
  }

  /** The search ignores white space around the query. */
  lemma SearchIgnoresPadding(apps: seq<Application>, pre: string, search: string, post: string, filterStatus: string)
    requires AllWhite(pre) && AllWhite(post)
    ensures FilteredApps(apps, pre + search + post, filterStatus) == FilteredApps(apps, search, filterStatus)
  {
    TrimPadded(pre, search, post);
  }

  /** An application with no name, email or position never matches a non-blank search. */
  lemma AnonymousNeverMatches(apps: seq<Application>, app: Application, search: string, filterStatus: string)
    requires app.fullName in {None, Some("")} && app.email in {None, Some("")} && app.position in {None, Some("")}
    requires !AllWhite(search)
    ensures app !in FilteredApps(apps, search, filterStatus)
  {
    TrimEmptyIffWhite(search);
  }

  lemma {:induction false} SelectNarrows(apps: seq<Application>, q: string, filterStatus: string)
    ensures IsSubsequence(Select(apps, q, filterStatus), Select(apps, q, AllStatuses))
    decreases |apps|
  {
    if apps != [] {
      SelectNarrows(apps[1..], q, filterStatus);
      var rest := Select(apps[1..], q, filterStatus);
      var all := Select(apps[1..], q, AllStatuses);
      if Keeps(apps[0], q, filterStatus) {
        assert ([apps[0]] + rest)[1..] == rest;
        assert ([apps[0]] + all)[1..] == all;
      } else if Keeps(apps[0], q, AllStatuses) {
        assert ([apps[0]] + all)[1..] == all;
      }
    }
  }

  /** For a fixed search, a specific status shows a subsequence of what `'all'` shows. */
  lemma StatusNarrows(apps: seq<Application>, search: string, filterStatus: string)
    ensures IsSubsequence(FilteredApps(apps, search, filterStatus), FilteredApps(apps, search, AllStatuses))
  {
    SelectNarrows(apps, SearchQuery(search), filterStatus);
  }

  // ---------------------------------------------------------------------------
  // Secret gate
  // ---------------------------------------------------------------------------

  /**
   * `attempt && ADMIN_SECRET && attempt === ADMIN_SECRET`; `attempt` is `None`
   * when the prompt is cancelled.
   */
  predicate Authorizes(attempt: Option<string>, secret: string) {
    attempt.Some? && attempt.value != "" && secret != "" && attempt.value == secret
  }

  /** Only the configured secret opens the gate, and an empty configured secret never does. */
  lemma AuthorizesIff(attempt: Option<string>, secret: string)
    ensures Authorizes(attempt, secret) <==> secret != "" && attempt == Some(secret)
  {
  }

  // ---------------------------------------------------------------------------
  // Signed download link
  // ---------------------------------------------------------------------------

  /** The POST the dashboard sends to the signed-URL handler. */
  datatype HandlerCall = HandlerCall(url: string, request: Http.Request)

  /** How the handler call ended: a parsed JSON reply (`None`: not JSON), or a failed fetch. */
  datatype HandlerReply = Answered(json: Option<Value>) | FetchFailed

  /** What the user sees: a new tab on the link, or an alert. */
  datatype UiAction = OpenTab(url: Value) | Alert(message: string)

  /** The request `getSignedUrl(path)` makes: none without a function base, otherwise `{ path, expires: 120 }`. */
  function SignedUrlCall(functionBase: string, path: string): (c: Option<HandlerCall>)
    ensures c.None? <==> functionBase == ""
    ensures c.Some? ==>
      && c.value.url == functionBase + "/get-signed-url"
      && c.value.request.httpMethod == "POST"
      && c.value.request.body.Some?
      && Member(c.value.request.body.value, "path") == Str(path)
      && Member(c.value.request.body.value, "expires") == Num(LinkLifetime)
  {
    if functionBase == "" then None
    else
      var body := Obj(map["path" := Str(path), "expires" := Num(LinkLifetime)]);
      Some(HandlerCall(functionBase + "/get-signed-url", Http.Request("POST", Some(body))))
  }

  /** What `getSignedUrl(path)` shows the user, given how the handler call ended. */
  function SignedUrlAction(functionBase: string, reply: HandlerReply): (a: UiAction)
    ensures functionBase == "" ==> a == Alert("No function base configured (VITE_FUNCTION_BASE).")
    ensures a.OpenTab? <==>
      functionBase != "" && reply.Answered? && reply.json.Some? && Truthy(Member(reply.json.value, "signedUrl"))
    ensures a.OpenTab? ==> a.url == Member(reply.json.value, "signedUrl")
    ensures functionBase != "" && (reply.FetchFailed? || (reply.Answered? && reply.json.None?)) ==>
      a == Alert("Signed URL request failed")
    ensures functionBase != "" && reply.Answered? && reply.json.Some? && !Truthy(Member(reply.json.value, "signedUrl")) ==>
      a == Alert("Could not get signed URL")
  {
    if functionBase == "" then Alert("No function base configured (VITE_FUNCTION_BASE).")
    else
      match reply
      case FetchFailed => Alert("Signed URL request failed")
      case Answered(None) => Alert("Signed URL request failed")
      case Answered(Some(json)) =>
        var url := Member(json, "signedUrl");
        if Truthy(url) then OpenTab(url) else Alert("Could not get signed URL")
  }

  /**
   * A download request from the dashboard reaches the storage service with the
   * same path and a 120-second lifetime, and a signed link from the store is
   * what the dashboard opens.
   */
  lemma DownloadEndToEnd(functionBase: string, path: string, env: Http.Env, store: SignedUrl.StoreCall -> SignedUrl.StoreReply)
    requires functionBase != "" && path != "" && SignedUrl.Configured(env)
    ensures
      var req := SignedUrlCall(functionBase, path).value.request;
      var call := SignedUrl.CreateSignedUrl(SignedUrl.Bucket(env), Str(path), LinkLifetime);
      && SignedUrl.Dispatch(req, env) == SignedUrl.Call(call)
      && (store(call).Signed? && Truthy(Member(store(call).data, "signedUrl")) ==>
            var resp := SignedUrl.Handle(req, env, store);
            resp.body.JsonBody? &&
            SignedUrlAction(functionBase, Answered(Some(resp.body.value))) == OpenTab(Member(store(call).data, "signedUrl")))
  {
  }

  // ---------------------------------------------------------------------------
  // Dashboard state
  // ---------------------------------------------------------------------------

  /** What the three list queries of `fetchAll` give back (`None`: `data` is null), or a rejected query. */
  datatype FetchOutcome =
    | Fetched(jobs: Option<seq<Job>>, jobTypes: Option<seq<JobType>>, applications: Option<seq<Application>>)
    | FetchThrew

  /** The tables the dashboard deletes from. */
  datatype Table = Jobs | JobTypes | Applications

  function TableName(t: Table): string {
    match t
    case Jobs => "jobs"
    case JobTypes => "job_types"
    case Applications => "applications"
  }

  /** A write the dashboard asks of the database. */
  datatype StoreWrite = DeleteRow(table: string, id: string) | InsertJobType(name: string)

  /** The job list after a refresh: the rows, `[]` for null data, unchanged when the queries threw. */
  function JobsAfter(current: seq<Job>, outcome: FetchOutcome): seq<Job> {
    match outcome
    case Fetched(jobs, _, _) => jobs.GetOr([])
    case FetchThrew => current
  }

  function JobTypesAfter(current: seq<JobType>, outcome: FetchOutcome): seq<JobType> {
    match outcome
    case Fetched(_, types, _) => types.GetOr([])
    case FetchThrew => current
  }

  function ApplicationsAfter(current: seq<Application>, outcome: FetchOutcome): seq<Application> {
    match outcome
    case Fetched(_, _, apps) => apps.GetOr([])
    case FetchThrew => current
  }

  /** The dashboard component's state. */
  class Dashboard {
    /** The configured admin secret; the empty string when unset. */
    const adminSecret: string
    var authorized: bool
    var jobs: seq<Job>
    var jobTypes: seq<JobType>
    var applications: seq<Application>
    var loading: bool
    var search: string
    var filterStatus: string
    /** The URL fragment of the current location. */
    var hash: string

    constructor (adminSecret: string, hash: string)
      ensures this.adminSecret == adminSecret && this.hash == hash
      ensures !authorized && !loading
      ensures jobs == [] && jobTypes == [] && applications == []
      ensures search == "" && filterStatus == AllStatuses
    {
      this.adminSecret := adminSecret;
      this.hash := hash;
      authorized := false;
      jobs, jobTypes, applications := [], [], [];
      loading := false;
      search, filterStatus := "", AllStatuses;
    }

    /** The applications on screen. */
    function Visible(): seq<Application>
      reads this
    {
      FilteredApps(applications, search, filterStatus)
    }

    /** `fetchAll`: reload the three lists; null data becomes an empty list, a rejected query keeps them. */
    method FetchAll(outcome: FetchOutcome)
      modifies this`jobs, this`jobTypes, this`applications, this`loading
      ensures !loading
      ensures jobs == JobsAfter(old(jobs), outcome)
      ensures jobTypes == JobTypesAfter(old(jobTypes), outcome)
      ensures applications == ApplicationsAfter(old(applications), outcome)
    {
      loading := true;
      match outcome {
        case Fetched(js, ts, apps) =>
          jobs := js.GetOr([]);
          jobTypes := ts.GetOr([]);
          applications := apps.GetOr([]);
        case FetchThrew =>
      }
      loading := false;
    }

    /** `promptForSecret`: open the gate and load everything, or close it and alert. */
    method PromptForSecret(attempt: Option<string>, outcome: FetchOutcome) returns (alert: Option<string>)
      modifies this`authorized, this`jobs, this`jobTypes, this`applications, this`loading
      ensures authorized <==> adminSecret != "" && attempt == Some(adminSecret)
      ensures authorized ==> alert == None && !loading
      ensures authorized ==> jobs == JobsAfter(old(jobs), outcome)
      ensures authorized ==> jobTypes == JobTypesAfter(old(jobTypes), outcome)
      ensures authorized ==> applications == ApplicationsAfter(old(applications), outcome)
      ensures !authorized ==> alert == Some("Incorrect admin secret.")
      ensures !authorized ==>
        jobs == old(jobs) && jobTypes == old(jobTypes) && applications == old(applications) && loading == old(loading)
    {
      if Authorizes(attempt, adminSecret) {
        authorized := true;
        FetchAll(outcome);
        alert := None;
      } else {
        authorized := false;
        alert := Some("Incorrect admin secret.");
      }
    }

    /** The mount effect: prompt only for the secret fragment or the `/admin` path. */
    method Mount(pathname: string, attempt: Option<string>, outcome: FetchOutcome) returns (prompted: bool, alert: Option<string>)
      modifies this`authorized, this`jobs, this`jobTypes, this`applications, this`loading
      ensures prompted <==> hash == SecretMarker || pathname == "/admin"
      ensures !prompted ==> alert == None && unchanged(this)
      ensures prompted ==> (authorized <==> adminSecret != "" && attempt == Some(adminSecret))
      ensures prompted && authorized ==>
        && alert == None && !loading
        && jobs == JobsAfter(old(jobs), outcome)
        && jobTypes == JobTypesAfter(old(jobTypes), outcome)
        && applications == ApplicationsAfter(old(applications), outcome)
      ensures prompted && !authorized ==>
        && alert == Some("Incorrect admin secret.")
        && jobs == old(jobs) && jobTypes == old(jobTypes) && applications == old(applications) && loading == old(loading)
    {
      prompted := hash == SecretMarker || pathname == "/admin";
      alert := None;
      if prompted {
        alert := PromptForSecret(attempt, outcome);
      }
    }

    /** The lock button: back to unauthorised, fragment cleared; the lists stay. */
    method Lock()
      modifies this`authorized, this`hash
      ensures !authorized && hash == ""
      ensures Visible() == old(Visible())
    {
      authorized := false;
      hash := "";
    }

    /** Typing in the search box. */
    method SetSearch(value: string)
      modifies this`search
      ensures search == value
      ensures Visible() == FilteredApps(applications, value, filterStatus)
    {
      search := value;
    }

    /** Choosing a status in the filter. */
    method SetFilterStatus(value: string)
      modifies this`filterStatus
      ensures filterStatus == value
      ensures Visible() == FilteredApps(applications, search, value)
    {
      filterStatus := value;
    }

    /**
     * `deleteJob`, `deleteApplication` and the job-type delete button: nothing
     * without confirmation; otherwise delete by id, then alert on an error or
     * refresh the lists.
     */
    method DeleteRecord(table: Table, id: string, confirmed: bool, error: Option<string>, refresh: FetchOutcome)
      returns (write: Option<StoreWrite>, alert: Option<string>)
      modifies this`jobs, this`jobTypes, this`applications, this`loading
      ensures !confirmed ==> write == None && alert == None && unchanged(this)
      ensures confirmed ==> write == Some(DeleteRow(TableName(table), id))
      ensures confirmed && error.Some? ==> alert == Some("Delete failed: " + error.value) && unchanged(this)
      ensures confirmed && error.None? ==>
        && alert == None && !loading
        && jobs == JobsAfter(old(jobs), refresh)
        && jobTypes == JobTypesAfter(old(jobTypes), refresh)
        && applications == ApplicationsAfter(old(applications), refresh)
    {
      write, alert := None, None;
      if !confirmed {
        return;
      }
      write := Some(DeleteRow(TableName(table), id));
      if error.Some? {
        alert := Some("Delete failed: " + error.value);
      } else {
        FetchAll(refresh);
      }
    }

    /** `createJobType`: nothing for a cancelled or empty name; otherwise insert, then alert or refresh. */
    method CreateJobType(name: Option<string>, error: Option<string>, refresh: FetchOutcome)
      returns (write: Option<StoreWrite>, alert: Option<string>)
      modifies this`jobs, this`jobTypes, this`applications, this`loading
      ensures name.None? || name == Some("") ==> write == None && alert == None && unchanged(this)
      ensures name.Some? && name.value != "" ==> write == Some(InsertJobType(name.value))
      ensures write.Some? && error.Some? ==> alert == Some("Create failed: " + error.value) && unchanged(this)
      ensures write.Some? && error.None? ==>
        && alert == None && !loading
        && jobs == JobsAfter(old(jobs), refresh)
        && jobTypes == JobTypesAfter(old(jobTypes), refresh)
        && applications == ApplicationsAfter(old(applications), refresh)
    {
      write, alert := None, None;
      if name.None? || name.value == "" {
        return;
      }
      write := Some(InsertJobType(name.value));
      if error.Some? {
        alert := Some("Create failed: " + error.value);
      } else {
        FetchAll(refresh);
      }
    }
  }
}
