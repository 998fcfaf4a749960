/**
 * The request logic of the HWA routes (src/api/hwa.py): the OQL keyword
 * blocklist, the dashboard summary, the job-action whitelist and the routing
 * of OQL queries. The scheduler client is not modelled; what it returns is an
 * input, and the call a route makes is its result.
 */
module HwaApi {
  import opened Common
  import opened JobModel

  /** The keywords `is_oql_query_safe` refuses, in the order it tries them. */
  const BlockedKeywords: seq<string> :=
    ["DELETE", "UPDATE", "INSERT", "CARRYFORWARD", "CANCEL", "HOLD", "RELEASE", "RERUN", "SUBMIT"]

  /** A character of `\w` known to the model: an ASCII letter, digit or underscore, or one of the non-ASCII letters `FoldChar` folds. */
  predicate IsWordChar(c: char)
  {
    ('a' <= c <= 'z') || ('A' <= c <= 'Z') || ('0' <= c <= '9') || c == '_'
    || c == '\U{017F}' || c == '\U{0131}' || c == '\U{0130}'
  }

  /**
   * The letter a query character stands for when `re.IGNORECASE` compares it
   * with an upper-case keyword letter: an ASCII letter by its upper case, and
   * the non-ASCII letters Python's matcher folds onto a letter of some keyword:
   * long s (U+017F) onto S, dotless i (U+0131) and capital I with dot (U+0130)
   * onto I.
   */
  function FoldChar(c: char): char
  {
    if 'a' <= c <= 'z' then (c as int - 32) as char
    else if c == '\U{017F}' then 'S'
    else if c == '\U{0131}' || c == '\U{0130}' then 'I'
    else c
  }

  /** ASCII upper-casing of one character. */
  function UpperChar(c: char): char
  {
    if 'a' <= c <= 'z' then (c as int - 32) as char else c
  }

  /** ASCII lower-casing of one character. */
  function LowerChar(c: char): char
  {
    if 'A' <= c <= 'Z' then (c as int + 32) as char else c
  }

  /** A query with every character folded. */
  function FoldString(s: string): (r: string)
    ensures |r| == |s| && forall i :: 0 <= i < |s| ==> r[i] == FoldChar(s[i])
  {
    if s == [] then [] else [FoldChar(s[0])] + FoldString(s[1..])
  }

  /** ASCII lower-casing of a string (`str.lower` on the statuses compared here). */
  function LowerString(s: string): (r: string)
    ensures |r| == |s| && forall i :: 0 <= i < |s| ==> r[i] == LowerChar(s[i])
  {
    if s == [] then [] else [LowerChar(s[0])] + LowerString(s[1..])
  }

  /**
   * `\bKW\b` matches at position `i` of `q`, ignoring case: the characters
   * there spell the (upper-case) keyword, and neither neighbour is a word
   * character.
   */
  predicate WordAt(q: string, kw: string, i: int)
  {
    && 0 <= i && i + |kw| <= |q|
    && (forall j :: 0 <= j < |kw| ==> FoldChar(q[i + j]) == kw[j])
    && (i == 0 || !IsWordChar(q[i - 1]))
    && (i + |kw| == |q| || !IsWordChar(q[i + |kw|]))
  }

  /** `re.search(r'\b' + kw + r'\b', q, re.IGNORECASE)` finds a match. */
  ghost predicate ContainsWord(q: string, kw: string)
  {
    exists i :: WordAt(q, kw, i)
  }

  /** The query contains none of the blocked keywords as a whole word. */
  ghost predicate QuerySafe(q: string)
  {
    forall k :: 0 <= k < |BlockedKeywords| ==> !ContainsWord(q, BlockedKeywords[k])
  }

  /** The left-to-right scan of `re.search`, from position `from` on. */
  function Search(q: string, kw: string, from: nat): (found: bool)
    ensures found <==> exists i :: from <= i && WordAt(q, kw, i)
    decreases |q| - from
  {
    if from + |kw| > |q| then false
    else WordAt(q, kw, from) || Search(q, kw, from + 1)
  }

  /** `is_oql_query_safe`: try each keyword in turn and refuse at the first one found. */
  method IsOqlQuerySafe(q: string) returns (safe: bool)
    ensures safe <==> QuerySafe(q)
  {
    for k := 0 to |BlockedKeywords|
      invariant forall k' :: 0 <= k' < k ==> !ContainsWord(q, BlockedKeywords[k'])
    {
      if Search(q, BlockedKeywords[k], 0) {
        return false;
      }
    }
    return true;
  }

  /** Folding keeps a character a word character or not, and folding twice is folding once. */
  lemma FoldKeepsWordChars(c: char)
    ensures IsWordChar(FoldChar(c)) == IsWordChar(c)
    ensures FoldChar(FoldChar(c)) == FoldChar(c)
  {
  }

  /** The verdict ignores case: a query is safe iff its folded form is. */
  lemma SafetyIgnoresCase(q: string)
    ensures QuerySafe(q) <==> QuerySafe(FoldString(q))
  {
    var u := FoldString(q);
    forall c | 0 <= c < |q| ensures IsWordChar(u[c]) == IsWordChar(q[c]) && FoldChar(u[c]) == FoldChar(q[c]) {
      FoldKeepsWordChars(q[c]);
    }
    forall kw, i ensures WordAt(q, kw, i) <==> WordAt(u, kw, i) {
    }
  }

  /** The empty query is safe. */
  lemma EmptyQueryIsSafe()
    ensures QuerySafe("")
  {
  }

  /** A keyword whose first letter appears nowhere in the query, in either case, is not found. */
  lemma AbsentInitialNotFound(q: string, kw: string)
    requires kw != []
    requires forall i :: 0 <= i < |q| ==> FoldChar(q[i]) != kw[0]
    ensures !ContainsWord(q, kw)
  {
  }

  /** A keyword that ends inside a longer word is not blocked: "DELETED" is safe. */
  lemma DeletedIsSafe()
    ensures QuerySafe("DELETED")
  {
    var q := "DELETED";
    assert !Search(q, "DELETE", 0);
    forall k | 1 <= k < |BlockedKeywords| ensures !ContainsWord(q, BlockedKeywords[k]) {
      AbsentInitialNotFound(q, BlockedKeywords[k]);
    }
  }

  /** `_` is a word character, so "MY_UPDATE" is not blocked. */
  lemma UnderscoreJoinsWords()
    ensures !ContainsWord("MY_UPDATE", "UPDATE")
  {
    assert !Search("MY_UPDATE", "UPDATE", 0);
  }

  /** A lower-case keyword is blocked. */
  lemma LowerCaseDeleteIsBlocked()
    ensures !QuerySafe("delete from plan")
  {
    assert WordAt("delete from plan", BlockedKeywords[0], 0);
  }

  /** A long s stands for S: "\U{017F}ubmit job" is blocked as SUBMIT. */
  lemma LongSIsBlocked()
    ensures !QuerySafe("\U{017F}ubmit job")
  {
    assert WordAt("\U{017F}ubmit job", BlockedKeywords[8], 0);
  }

  /** A dotless i stands for I: "\U{0131}nsert into x" is blocked as INSERT. */
  lemma DotlessIIsBlocked()
    ensures !QuerySafe("\U{0131}nsert into x")
  {
    assert WordAt("\U{0131}nsert into x", BlockedKeywords[2], 0);
  }

  /** A job-stream record of the dashboard counts `target` when its status, lower-cased, is `target`. */
  predicate HasStatus(j: Job, target: string)
  {
    LowerString(GetOr(j.status, "")) == target
  }

  /** `[j for j in jobs if j.get('status', '').lower() == target]`. */
  function WithStatus(jobs: seq<Job>, target: string): (r: seq<Job>)
    ensures |r| <= |jobs|
    ensures forall j :: j in r <==> j in jobs && HasStatus(j, target)
  {
    if jobs == [] then []
    else
      var rest := WithStatus(jobs[1..], target);
      assert forall j :: j in jobs <==> j == jobs[0] || j in jobs[1..];
      if HasStatus(jobs[0], target) then [jobs[0]] + rest else rest
  }

  /** The filter keeps order: filtering a concatenation filters each part. */
  lemma {:induction false} WithStatusDistributes(a: seq<Job>, b: seq<Job>, target: string)
    ensures WithStatus(a + b, target) == WithStatus(a, target) + WithStatus(b, target)
  {
    if a != [] {
      var rest := WithStatus(a[1..], target);
      assert (a + b)[0] == a[0];
      assert (a + b)[1..] == a[1..] + b;
      WithStatusDistributes(a[1..], b, target);
      AppendAssoc([a[0]], rest, WithStatus(b, target));
    } else {
      assert a + b == b;
    }
  }

  /** A record is never both abended and running, so the two counts together never exceed the total. */
  lemma {:induction false} CountsBoundedByTotal(jobs: seq<Job>)
    ensures |WithStatus(jobs, "abend")| + |WithStatus(jobs, "exec")| <= |jobs|
    ensures forall j :: j in WithStatus(jobs, "abend") ==> j !in WithStatus(jobs, "exec")
  {
    if jobs != [] {
      CountsBoundedByTotal(jobs[1..]);
    }
  }

  /** A workstation record; the dashboard only counts them. */
  datatype Workstation = Workstation(name: Option<string>, status: Option<string>)

  /** The result of one scheduler query: it raised, or it returned these records. */
  datatype Fetch<T> = FetchFailed | Fetched(items: seq<T>)

  /** The body of a successful `/api/dashboard_data` response. */
  datatype Dashboard = Dashboard(
    abendCount: nat,
    runningCount: nat,
    totalJobStreamCount: nat,
    totalWorkstationCount: nat,
    jobStreams: seq<Job>,
    workstations: seq<Workstation>,
    jobsAbend: seq<Job>,
    jobsRunning: seq<Job>)

  /** A response: a body, or an `HTTPException` with its status code and detail. */
  datatype Response<T> = Ok(body: T) | HttpError(status: int, detail: string)

  /** `get_dashboard_data`: both queries run together, and either failing fails the request with 500. */
  function DashboardData(streams: Fetch<Job>, stations: Fetch<Workstation>): (r: Response<Dashboard>)
    ensures r.HttpError? <==> streams.FetchFailed? || stations.FetchFailed?
    ensures r.HttpError? ==> r.status == 500
  {
    if streams.FetchFailed? || stations.FetchFailed? then
      HttpError(500, "Failed to fetch dashboard data.")
    else
      var abend := WithStatus(streams.items, "abend");
      var running := WithStatus(streams.items, "exec");
      Ok(Dashboard(|abend|, |running|, |streams.items|, |stations.items|,
                   streams.items, stations.items, abend, running))
  }

  /**
   * A successful dashboard counts exactly the abended and running records it
   * lists, lists them in the order of the job streams, never lists a record
   * in both, and so never counts more than the total.
   */
  lemma DashboardCounts(jobs: seq<Job>, stations: seq<Workstation>)
    ensures var d := DashboardData(Fetched(jobs), Fetched(stations)).body;
            && d.abendCount == |d.jobsAbend| && d.runningCount == |d.jobsRunning|
            && d.totalJobStreamCount == |jobs| && d.totalWorkstationCount == |stations|
            && (forall j :: j in d.jobsAbend <==> j in jobs && HasStatus(j, "abend"))
            && (forall j :: j in d.jobsRunning <==> j in jobs && HasStatus(j, "exec"))
            && (forall j :: j in d.jobsAbend ==> j !in d.jobsRunning)
            && d.abendCount + d.runningCount <= d.totalJobStreamCount
  {
    CountsBoundedByTotal(jobs);
  }

  /** One abended and one running stream, one workstation: both counts are one. */
  lemma DashboardExample()
    ensures var jobs := [Job(Some("JOB1"), Some("ABEND"), None, None), Job(Some("JOB2"), Some("EXEC"), None, None)];
            var d := DashboardData(Fetched(jobs), Fetched([Workstation(Some("CPU1"), Some("LINKED"))])).body;
            d.abendCount == 1 && d.runningCount == 1 && d.totalJobStreamCount == 2 && d.totalWorkstationCount == 1
  {
    var j1 := Job(Some("JOB1"), Some("ABEND"), None, None);
    var j2 := Job(Some("JOB2"), Some("EXEC"), None, None);
    assert LowerString("ABEND") == "abend";
    assert LowerString("EXEC") == "exec";
    assert [j1, j2][1..] == [j2];
  }

  /** The plan-service calls a job action can make. */
  datatype PlanCommand = CancelJob | RerunJob | HoldJob | ReleaseJob

  /** `action_map`: the action names the route accepts, case-sensitively. */
  function ActionCommand(action: string): (r: Option<PlanCommand>)
    ensures r.Some? <==> action in {"cancel", "rerun", "hold", "release"}
  {
    match action
    case "cancel" => Some(CancelJob)
    case "rerun" => Some(RerunJob)
    case "hold" => Some(HoldJob)
    case "release" => Some(ReleaseJob)
    case _ => None
  }

  /** The action name of each command. */
  function CommandName(c: PlanCommand): string
  {
    match c
    case CancelJob => "cancel"
    case RerunJob => "rerun"
    case HoldJob => "hold"
    case ReleaseJob => "release"
  }

  /** Each accepted name maps to one command, and each command to its own name. */
  lemma ActionMapIsBijective(action: string, c: PlanCommand)
    ensures ActionCommand(CommandName(c)) == Some(c)
    ensures ActionCommand(action) == Some(c) <==> action == CommandName(c)
  {
  }

  /** `str.capitalize` on ASCII: the first character upper-cased, the rest lower-cased. */
  function Capitalize(s: string): (r: string)
    ensures |r| == |s|
    ensures s != [] ==> r[0] == UpperChar(s[0]) && r[1..] == LowerString(s[1..])
  {
    if s == [] then [] else [UpperChar(s[0])] + LowerString(s[1..])
  }

  /** What `_job_action_endpoint` does: refuse the action, or call the mapped command on the job. */
  datatype ActionResult =
    | Refused(status: int, detail: string)
    | CommandSent(command: PlanCommand, jobId: string, planId: string, message: string)

  /** `_job_action_endpoint`: an unknown action is refused with 400 before any service call. */
  function JobActionEndpoint(action: string, planId: string, jobId: string): (r: ActionResult)
    ensures r.Refused? <==> ActionCommand(action).None?
    ensures r.Refused? ==> r.status == 400 && r.detail == "Invalid action: " + action
    ensures r.CommandSent? ==>
              && CommandName(r.command) == action
              && r.jobId == jobId && r.planId == planId
              && r.message == "'" + Capitalize(action) + "' command sent."
  {
    match ActionCommand(action)
    case None => Refused(400, "Invalid action: " + action)
    case Some(c) => CommandSent(c, jobId, planId, "'" + Capitalize(action) + "' command sent.")
  }

  /** The success message for "rerun". */
  lemma RerunMessage()
    ensures JobActionEndpoint("rerun", "p", "j").message == "'Rerun' command sent."
  {
    var rest := LowerString("erun");
    assert rest[0] == 'e' && rest[1] == 'r' && rest[2] == 'u' && rest[3] == 'n';
    assert rest == "erun";
    assert "rerun"[1..] == "erun";
    assert Capitalize("rerun") == ['R'] + "erun" == "Rerun";
    assert "'" + "Rerun" == "'Rerun";
    assert "'Rerun" + "' command sent." == "'Rerun' command sent.";
  }

  /** Where `execute_oql` sends a query, or its refusal. */
  datatype OqlRoute = OqlRefused(status: int, detail: string) | ToModel(query: string) | ToPlan(query: string)

  /**
   * `execute_oql`: an unsafe query is refused with 400 before any client call;
   * a safe one goes to the model service when `source` is "model" and to the
   * plan service for every other value.
   */
  method ExecuteOql(q: string, source: string) returns (r: OqlRoute)
    ensures r.OqlRefused? <==> !QuerySafe(q)
    ensures r.OqlRefused? ==> r.status == 400
    ensures r.ToModel? <==> QuerySafe(q) && source == "model"
    ensures r.ToPlan? <==> QuerySafe(q) && source != "model"
    ensures !r.OqlRefused? ==> r.query == q
  {
    var safe := IsOqlQuerySafe(q);
    if !safe {
      return OqlRefused(400, "Query contains potentially harmful keywords.");
    }
    if source == "model" {
      return ToModel(q);
    }
    return ToPlan(q);
  }
}
