/** The repository view: it fetches one repository of a user, normalises the
    response into the record its success view reads, and picks a render
    branch from the username and the request status. */
module RepositoryItemDetails {
  import opened Lifecycle

  /** One element of the payload's `languages` array. */
  datatype RawLanguage = RawLanguage(name: Field<string>, value: Field<int>)

  /** One element of the payload's `contributors` array: its `avatar_url`. */
  datatype RawContributor = RawContributor(avatarUrl: Field<string>)

  /** The properties of the repository payload that the view reads, keyed in
      JSON as `name`, `description`, `stargazers_count`, `forks_count`,
      `watchers_count`, `open_issues_count`, `languages` and `contributors`. */
  datatype RawRepository = RawRepository(
    name: Field<string>,
    description: Field<string>,
    stargazersCount: Field<int>,
    forksCount: Field<int>,
    watchersCount: Field<int>,
    openIssuesCount: Field<int>,
    languages: Field<seq<RawLanguage>>,
    contributors: Field<seq<RawContributor>>)

  /** A `{name, value}` language entry of the normalised record. */
  datatype Language = Language(name: Field<string>, value: Field<int>)

  /** A `{avatarUrl}` contributor entry of the normalised record. */
  datatype Contributor = Contributor(avatarUrl: Field<string>)

  /** The normalised record `repo` kept in `repositoryItemDetailsList`; its
      two lists are always arrays. */
  datatype Repository = Repository(
    name: Field<string>,
    description: Field<string>,
    stargazersCount: Field<int>,
    forksCount: Field<int>,
    watchersCount: Field<int>,
    openIssuesCount: Field<int>,
    languages: seq<Language>,
    contributors: seq<Contributor>)

  /** `list || []` for a property that holds an array when present. */
  function OrEmpty<T>(list: Field<seq<T>>): (r: seq<T>)
    ensures list.Present? ==> r == list.value
    ensures !list.Present? ==> r == []
  {
    if list.Present? then list.value else []
  }

  /** `.map(each => ({name: each.name, value: each.value}))`. */
  function MapLanguages(raw: seq<RawLanguage>): (r: seq<Language>)
    ensures |r| == |raw|
    ensures forall i :: 0 <= i < |raw| ==> r[i].name == raw[i].name && r[i].value == raw[i].value
  {
    if raw == [] then [] else [Language(raw[0].name, raw[0].value)] + MapLanguages(raw[1..])
  }

  /** `.map(each => ({avatarUrl: each.avatar_url}))`. */
  function MapContributors(raw: seq<RawContributor>): (r: seq<Contributor>)
    ensures |r| == |raw|
    ensures forall i :: 0 <= i < |raw| ==> r[i].avatarUrl == raw[i].avatarUrl
  {
    if raw == [] then [] else [Contributor(raw[0].avatarUrl)] + MapContributors(raw[1..])
  }

  /** The `repo` record built from an ok response's body. */
  function Normalize(data: RawRepository): (r: Repository)
    ensures r.name == data.name && r.description == data.description
    ensures r.stargazersCount == data.stargazersCount && r.forksCount == data.forksCount
    ensures r.watchersCount == data.watchersCount && r.openIssuesCount == data.openIssuesCount
    ensures !data.languages.Present? ==> r.languages == []
    ensures !data.contributors.Present? ==> r.contributors == []
    ensures |r.languages| == |OrEmpty(data.languages)|
    ensures forall i :: 0 <= i < |r.languages| ==>
              r.languages[i].name == OrEmpty(data.languages)[i].name
              && r.languages[i].value == OrEmpty(data.languages)[i].value
    ensures |r.contributors| == |OrEmpty(data.contributors)|
    ensures forall i :: 0 <= i < |r.contributors| ==>
              r.contributors[i].avatarUrl == OrEmpty(data.contributors)[i].avatarUrl
  {
    Repository(
      data.name, data.description,
      data.stargazersCount, data.forksCount, data.watchersCount, data.openIssuesCount,
      MapLanguages(OrEmpty(data.languages)),
      MapContributors(OrEmpty(data.contributors)))
  }

  /** `renderGitRepositoryItemDetails` under the guard of `render`: a missing
      username shows the failure view whatever the status. */
  function Render(username: Field<string>, status: ApiStatus): (b: Branch)
    ensures UsernameMissing(username) ==> b == FailureView
    ensures b == FailureView <==> UsernameMissing(username) || status == Failure
    ensures b == SuccessView <==> !UsernameMissing(username) && status == Success
    ensures b == LoaderView <==> !UsernameMissing(username) && status == InProgress
    ensures b == NoView <==> !UsernameMissing(username) && status == Initial
    ensures b != HeroView && b != NoDataView
  {
    if UsernameMissing(username) then FailureView
    else match status
      case Success => SuccessView
      case Failure => FailureView
      case InProgress => LoaderView
      case Initial => NoView
  }

  /** The component's state. `fetchCount` counts the requests issued to the
      repository endpoint; the props are fixed at construction. */
  class RepositoryItemDetails {
    const username: Field<string>
    const repoName: Field<string>
    var apiStatus: ApiStatus
    var repositoryItemDetailsList: Option<Repository>
    var fetchCount: nat

    /** SUCCESS is only ever set together with the record, the record only
        comes from a request, and without a request the status is INITIAL
        or, for a missing username, FAILURE. */
    ghost predicate Valid()
      reads this
    {
      && (apiStatus == Success ==> repositoryItemDetailsList.Some?)
      && (repositoryItemDetailsList.Some? ==> fetchCount > 0)
      && (fetchCount == 0 ==> apiStatus == Initial || (apiStatus == Failure && UsernameMissing(username)))
    }

    /** The initial `state`: INITIAL with no record. */
    constructor (username: Field<string>, repoName: Field<string>)
      ensures Valid()
      ensures this.username == username && this.repoName == repoName
      ensures apiStatus == Initial && repositoryItemDetailsList == None && fetchCount == 0
    {
      this.username := username;
      this.repoName := repoName;
      apiStatus := Initial;
      repositoryItemDetailsList := None;
      fetchCount := 0;
    }

    /** `componentDidMount`: a missing username sets FAILURE and issues no
        request; any other username (`null` included) starts the fetch. */
    method Mount() returns (issued: bool)
      requires Valid()
      modifies this
      ensures Valid()
      ensures issued <==> !UsernameMissing(username)
      ensures apiStatus == if issued then InProgress else Failure
      ensures fetchCount == old(fetchCount) + (if issued then 1 else 0)
      ensures repositoryItemDetailsList == old(repositoryItemDetailsList)
    {
      if UsernameMissing(username) {
        apiStatus := Failure;
        issued := false;
      } else {
        Start();
        issued := true;
      }
    }

    /** `getRepositoryItemDetails` up to its `await`, also run by the
        failure view's Try Again button: IN_PROGRESS, one request issued,
        the previous record kept. */
    method Start()
      requires Valid()
      modifies this
      ensures Valid()
      ensures apiStatus == InProgress
      ensures fetchCount == old(fetchCount) + 1
      ensures repositoryItemDetailsList == old(repositoryItemDetailsList)
    {
      apiStatus := InProgress;
      fetchCount := fetchCount + 1;
    }

    /** An ok response: the normalised record and SUCCESS are set together. */
    method ResolveOk(data: RawRepository)
      requires Valid() && apiStatus == InProgress
      modifies this
      ensures Valid()
      ensures apiStatus == Success
      ensures repositoryItemDetailsList == Some(Normalize(data))
      ensures fetchCount == old(fetchCount)
    {
      repositoryItemDetailsList := Some(Normalize(data));
      apiStatus := Success;
    }

    /** A non-ok response: FAILURE, the previous record kept. */
    method ResolveNotOk()
      requires Valid() && apiStatus == InProgress
      modifies this
      ensures Valid()
      ensures apiStatus == Failure
      ensures repositoryItemDetailsList == old(repositoryItemDetailsList)
      ensures fetchCount == old(fetchCount)
    {
      apiStatus := Failure;
    }

    /** An exception from `fetch` or `response.json()`: handled like a non-ok
        response. */
    method Throw()
      requires Valid() && apiStatus == InProgress
      modifies this
      ensures Valid()
      ensures apiStatus == Failure
      ensures repositoryItemDetailsList == old(repositoryItemDetailsList)
      ensures fetchCount == old(fetchCount)
    {
      apiStatus := Failure;
    }

    /** The branch `render` shows; the success view can read the record. */
    function View(): (b: Branch)
      reads this
      requires Valid()
      ensures b == SuccessView ==> repositoryItemDetailsList.Some?
    {
      Render(username, apiStatus)
    }
  }

  /** A mount with an empty username never issues a request and shows the
      failure view; Try Again then issues one, yet the view stays on the
      failure branch. */
  method EmptyUsernameScenario()
  {
    var v := new RepositoryItemDetails(Present(""), Present("react"));
    var issued := v.Mount();
    assert !issued && v.fetchCount == 0 && v.View() == FailureView;
    v.Start();
    assert v.fetchCount == 1 && v.apiStatus == InProgress && v.View() == FailureView;
  }

  /** A payload without `languages` and `contributors` gives empty lists. */
  method MissingListsScenario()
  {
    var v := new RepositoryItemDetails(Present("octocat"), Present("hello"));
    var issued := v.Mount();
    v.ResolveOk(RawRepository(Present("hello"), Null, Present(3), Present(1), Present(3), Present(0), Undefined, Null));
    assert v.View() == SuccessView;
    assert v.repositoryItemDetailsList.value.languages == [];
    assert v.repositoryItemDetailsList.value.contributors == [];
  }
}
