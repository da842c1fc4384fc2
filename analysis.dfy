/** The analysis view: it fetches a user's profile summary, projects its
    quarter -> commit counts into one sorted chart series shared by four
    charts, and picks a render branch from the username and the status. */
module Analysis {
  import opened Lifecycle
  import opened ChartProjection

  /** The `user` object of the summary: the two properties the view reads. */
  datatype User = User(avatarUrl: Field<string>, login: Field<string>)

  /** The properties of the summary payload that the view reads.
      `EmptyAnalysis` is the initial `analysisList`, the object `{}`. */
  datatype AnalysisData = AnalysisData(user: Field<User>, quarterCommitCount: Field<CategoryCount>)

  const EmptyAnalysis := AnalysisData(Undefined, Undefined)

  /** What the success view hands to its children: the heading, the avatar,
      and the data of the four charts in the order they appear: Commit
      Trends, Language Per Repos, Language Per Commits, Commits Per Repo. */
  datatype SuccessContent = SuccessContent(
    login: Field<string>,
    avatarUrl: Field<string>,
    commitTrends: seq<Entry>,
    languagePerRepos: seq<Entry>,
    languagePerCommits: seq<Entry>,
    commitsPerRepo: seq<Entry>)

  /** `quarterCommitSlicedData`: the `quarterCommitCount = {}` default covers
      an absent property, `quarterCommitCount || {}` a `null` one. */
  function QuarterCommitSeries(counts: Field<CategoryCount>): (r: seq<Entry>)
    ensures !counts.Present? ==> r == []
    ensures counts.Present? ==>
              && |r| == |counts.value|
              && SortedDescending(r)
              && multiset(r) == multiset(Entries(counts.value))
              && forall v :: WithValue(r, v) == WithValue(Entries(counts.value), v)
  {
    if counts.Present? then Project(counts.value) else Project([])
  }

  /** `renderAnalysisSuccessView`. The `user = {}` default covers an absent
      `user`; destructuring a `null` one throws a TypeError during render,
      which is `None` here. */
  function RenderSuccessView(data: AnalysisData): (r: Option<SuccessContent>)
    ensures r.None? <==> data.user == Null
    ensures r.Some? ==>
              var series := QuarterCommitSeries(data.quarterCommitCount);
              && r.value.commitTrends == series
              && r.value.languagePerRepos == series
              && r.value.languagePerCommits == series
              && r.value.commitsPerRepo <= series
              && |r.value.commitsPerRepo| == (if |series| < CommitsPerRepoLimit then |series| else CommitsPerRepoLimit)
    ensures data.user == Undefined ==> r.Some? && r.value.login == Undefined && r.value.avatarUrl == Undefined
    ensures data.user.Present? ==>
              r.Some? && r.value.login == data.user.value.login && r.value.avatarUrl == data.user.value.avatarUrl
  {
    var series := QuarterCommitSeries(data.quarterCommitCount);
    var user := match data.user case Present(u) => u case _ => User(Undefined, Undefined);
    if data.user == Null then None
    else Some(SuccessContent(user.login, user.avatarUrl, series, series, series, Slice(series, CommitsPerRepoLimit)))
  }

  /** `renderGitAnalysisDetails` under the guard of `render`: a missing
      username shows No Data Found whatever the status, never the loader. */
  function Render(username: Field<string>, status: ApiStatus): (b: Branch)
    ensures UsernameMissing(username) ==> b == NoDataView
    ensures b == NoDataView <==> UsernameMissing(username)
    ensures b == SuccessView <==> !UsernameMissing(username) && status == Success
    ensures b == FailureView <==> !UsernameMissing(username) && status == Failure
    ensures b == LoaderView <==> !UsernameMissing(username) && status == InProgress
    ensures b == NoView <==> !UsernameMissing(username) && status == Initial
    ensures b != HeroView
  {
    if UsernameMissing(username) then NoDataView
    else match status
      case Success => SuccessView
      case Failure => FailureView
      case InProgress => LoaderView
      case Initial => NoView
  }

  /** The component's state. `fetchCount` counts the requests issued to the
      profile-summary endpoint. */
  class Analysis {
    const username: Field<string>
    var analysisList: AnalysisData
    var apiStatus: ApiStatus
    var fetchCount: nat

    /** Without a request the list is still `{}` and the status INITIAL or,
        for a missing username, FAILURE. */
    ghost predicate Valid()
      reads this
    {
      fetchCount == 0 ==>
        && analysisList == EmptyAnalysis
        && (apiStatus == Initial || (apiStatus == Failure && UsernameMissing(username)))
    }

    /** The initial `state`: `{}` and INITIAL. */
    constructor (username: Field<string>)
      ensures Valid()
      ensures this.username == username
      ensures analysisList == EmptyAnalysis && apiStatus == Initial && fetchCount == 0
    {
      this.username := username;
      analysisList := EmptyAnalysis;
      apiStatus := Initial;
      fetchCount := 0;
    }

    /** `componentDidMount`: a missing username sets FAILURE and issues no
        request; any other username starts the fetch. */
    method Mount() returns (issued: bool)
      requires Valid()
      modifies this
      ensures Valid()
      ensures issued <==> !UsernameMissing(username)
      ensures apiStatus == if issued then InProgress else Failure
      ensures fetchCount == old(fetchCount) + (if issued then 1 else 0)
      ensures analysisList == old(analysisList)
    {
      if UsernameMissing(username) {
        apiStatus := Failure;
        issued := false;
      } else {
        Start();
        issued := true;
      }
    }

    /** `getGitHubUserAnalysisDetails` up to its `await`: IN_PROGRESS, one
        request issued, the previous list kept. */
    method Start()
      requires Valid()
      modifies this
      ensures Valid()
      ensures apiStatus == InProgress
      ensures fetchCount == old(fetchCount) + 1
      ensures analysisList == old(analysisList)
    {
      apiStatus := InProgress;
      fetchCount := fetchCount + 1;
    }

    /** `onClickTryAgain`: the failure view's button runs the same fetch. */
    method TryAgain()
      requires Valid()
      modifies this
      ensures Valid()
      ensures apiStatus == InProgress
      ensures fetchCount == old(fetchCount) + 1
      ensures analysisList == old(analysisList)
    {
      Start();
    }

    /** An ok response: the body becomes `analysisList`, with SUCCESS. */
    method ResolveOk(data: AnalysisData)
      requires Valid() && apiStatus == InProgress
      modifies this
      ensures Valid()
      ensures apiStatus == Success && analysisList == data
      ensures fetchCount == old(fetchCount)
    {
      analysisList := data;
      apiStatus := Success;
    }

    /** A non-ok response: FAILURE, the previous list kept. */
    method ResolveNotOk()
      requires Valid() && apiStatus == InProgress
      modifies this
      ensures Valid()
      ensures apiStatus == Failure
      ensures analysisList == old(analysisList)
      ensures fetchCount == old(fetchCount)
    {
      apiStatus := Failure;
    }

    /** An exception from `fetch` or `response.json()`: handled like a non-ok
        response. */
    method Throw()
      requires Valid() && apiStatus == InProgress
      modifies this
      ensures Valid()
      ensures apiStatus == Failure
      ensures analysisList == old(analysisList)
      ensures fetchCount == old(fetchCount)
    {
      apiStatus := Failure;
    }
  }

  /** A missing `user` does not break the success view, and a missing
      `quarterCommitCount` gives four empty charts. */
  lemma EmptySummaryRenders()
    ensures RenderSuccessView(EmptyAnalysis)
         == Some(SuccessContent(Undefined, Undefined, [], [], [], []))
  {
  }

  /** An empty username: No Data Found at once and after the failed mount,
      and no request issued. */
  method MissingUsernameScenario()
  {
    var v := new Analysis(Undefined);
    assert Render(v.username, v.apiStatus) == NoDataView;
    var issued := v.Mount();
    assert !issued && v.fetchCount == 0 && v.apiStatus == Failure;
    assert Render(v.username, v.apiStatus) == NoDataView;
  }

  /** A failed fetch, then Try Again, then success with a payload. */
  method RetryScenario(data: AnalysisData)
  {
    var v := new Analysis(Present("octocat"));
    var issued := v.Mount();
    v.ResolveNotOk();
    assert Render(v.username, v.apiStatus) == FailureView && v.analysisList == EmptyAnalysis;
    v.TryAgain();
    assert Render(v.username, v.apiStatus) == LoaderView;
    v.ResolveOk(data);
    assert Render(v.username, v.apiStatus) == SuccessView && v.analysisList == data && v.fetchCount == 2;
  }
}
