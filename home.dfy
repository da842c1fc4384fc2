/** The home view: a search box whose non-blank text is published as the
    current username and looked up at the profile endpoint, and a body that
    shows the hero image, the loader, the failure notice or the profile. */
module Home {
  import opened Lifecycle
  import opened JsString

  /** The properties of the profile payload that `renderSuccess` reads,
      keyed in JSON as `name`, `avatar_url`, `login`, `bio`, `followers`,
      `following`, `public_repos`, `company`, `blog`, `location`, `title`. */
  datatype Profile = Profile(
    name: Field<string>,
    avatarUrl: Field<string>,
    login: Field<string>,
    bio: Field<string>,
    followers: Field<int>,
    following: Field<int>,
    publicRepos: Field<int>,
    company: Field<string>,
    blog: Field<string>,
    location: Field<string>,
    title: Field<string>)

  /** What the success view shows: every field as received, and the title
      heading only when `title &&` lets it through. */
  datatype ProfileCard = ProfileCard(
    avatarUrl: Field<string>,
    name: Field<string>,
    login: Field<string>,
    bio: Field<string>,
    followers: Field<int>,
    following: Field<int>,
    publicRepos: Field<int>,
    company: Field<string>,
    blog: Field<string>,
    location: Field<string>,
    titleHeading: Option<string>)

  /** The guard `searchInput.trim() === ''`: a search text is blank exactly
      when it is empty or all white space. */
  predicate IsBlank(searchInput: string): (blank: bool)
    ensures blank <==> forall i :: 0 <= i < |searchInput| ==> IsWhiteSpace(searchInput[i])
  {
    TrimEmptyIffAllWhiteSpace(searchInput);
    Trim(searchInput) == ""
  }

  /** `renderSuccess`: the payload's fields are shown unchanged; the title
      heading appears exactly for a present, non-empty title. */
  function RenderSuccess(p: Profile): (c: ProfileCard)
    ensures c.avatarUrl == p.avatarUrl && c.name == p.name && c.login == p.login && c.bio == p.bio
    ensures c.followers == p.followers && c.following == p.following && c.publicRepos == p.publicRepos
    ensures c.company == p.company && c.blog == p.blog && c.location == p.location
    ensures c.titleHeading.Some? <==> p.title.Present? && p.title.value != ""
    ensures c.titleHeading.Some? ==> c.titleHeading.value == p.title.value
  {
    ProfileCard(
      p.avatarUrl, p.name, p.login, p.bio, p.followers, p.following, p.publicRepos,
      p.company, p.blog, p.location,
      if p.title.Present? && p.title.value != "" then Some(p.title.value) else None)
  }

  /** `renderBody`: one branch per status, no two statuses sharing one. */
  function RenderBody(status: ApiStatus): (b: Branch)
    ensures b == HeroView <==> status == Initial
    ensures b == LoaderView <==> status == InProgress
    ensures b == FailureView <==> status == Failure
    ensures b == SuccessView <==> status == Success
  {
    match status
    case Success => SuccessView
    case Failure => FailureView
    case InProgress => LoaderView
    case Initial => HeroView
  }

  /** The component's state. `userNameChanges` records the calls of the
      context's `changeUserName`; `fetchedUsernames` records the username of
      each request issued to the profile endpoint. */
  class Home {
    var searchInput: string
    var apiStatus: ApiStatus
    var profile: Option<Profile>
    var userNameChanges: seq<string>
    var fetchedUsernames: seq<string>

    /** SUCCESS is only ever set together with a profile; the status leaves
        INITIAL with the first request; every request was announced to the
        context first, and none was for a blank text. */
    ghost predicate Valid()
      reads this
    {
      && (apiStatus == Success ==> profile.Some?)
      && (apiStatus == Initial <==> fetchedUsernames == [])
      && (profile.Some? ==> fetchedUsernames != [])
      && userNameChanges == fetchedUsernames
      && forall i :: 0 <= i < |fetchedUsernames| ==> !IsBlank(fetchedUsernames[i])
    }

    /** The initial `state`: empty input, INITIAL, no profile. */
    constructor ()
      ensures Valid()
      ensures searchInput == "" && apiStatus == Initial && profile == None
      ensures userNameChanges == [] && fetchedUsernames == []
    {
      searchInput := "";
      apiStatus := Initial;
      profile := None;
      userNameChanges := [];
      fetchedUsernames := [];
    }

    /** `onChangeInput`: only the input changes. */
    method ChangeInput(value: string)
      requires Valid()
      modifies this
      ensures Valid()
      ensures searchInput == value
      ensures apiStatus == old(apiStatus) && profile == old(profile)
      ensures userNameChanges == old(userNameChanges) && fetchedUsernames == old(fetchedUsernames)
    {
      searchInput := value;
    }

    /** `onSearch` up to its `await`. A blank input changes nothing. Any
        other input, untrimmed, is passed to `changeUserName` and requested,
        and the status becomes IN_PROGRESS. The input itself is never
        touched. */
    method Search() returns (issued: bool)
      requires Valid()
      modifies this
      ensures Valid()
      ensures issued <==> !IsBlank(old(searchInput))
      ensures !issued ==> unchanged(this)
      ensures issued ==>
                && userNameChanges == old(userNameChanges) + [old(searchInput)]
                && fetchedUsernames == old(fetchedUsernames) + [old(searchInput)]
                && apiStatus == InProgress
      ensures searchInput == old(searchInput) && profile == old(profile)
    {
      if IsBlank(searchInput) {
        return false;
      }
      userNameChanges := userNameChanges + [searchInput];
      apiStatus := InProgress;
      fetchedUsernames := fetchedUsernames + [searchInput];
      issued := true;
    }

    /** An ok response: the body becomes `profile`, with SUCCESS. */
    method ResolveOk(data: Profile)
      requires Valid() && apiStatus == InProgress
      modifies this
      ensures Valid()
      ensures apiStatus == Success && profile == Some(data)
      ensures searchInput == old(searchInput)
      ensures userNameChanges == old(userNameChanges) && fetchedUsernames == old(fetchedUsernames)
    {
      profile := Some(data);
      apiStatus := Success;
    }

    /** A non-ok response: FAILURE, the previous profile kept. */
    method ResolveNotOk()
      requires Valid() && apiStatus == InProgress
      modifies this
      ensures Valid()
      ensures apiStatus == Failure
      ensures profile == old(profile) && searchInput == old(searchInput)
      ensures userNameChanges == old(userNameChanges) && fetchedUsernames == old(fetchedUsernames)
    {
      apiStatus := Failure;
    }

    /** An exception from `fetch` or `response.json()`: handled like a non-ok
        response. */
    method Throw()
      requires Valid() && apiStatus == InProgress
      modifies this
      ensures Valid()
      ensures apiStatus == Failure
      ensures profile == old(profile) && searchInput == old(searchInput)
      ensures userNameChanges == old(userNameChanges) && fetchedUsernames == old(fetchedUsernames)
    {
      apiStatus := Failure;
    }

    /** The profile card shown in the success branch; the invariant is what
        makes the destructuring of `profile` safe there. */
    function SuccessCard(): (c: ProfileCard)
      reads this
      requires Valid() && RenderBody(apiStatus) == SuccessView
      ensures profile.Some? && c.login == profile.value.login && c.name == profile.value.name
    {
      RenderSuccess(profile.value)
    }
  }

  /** Searching for "octocat" shows exactly the received fields. */
  method OctocatScenario()
  {
    var h := new Home();
    h.ChangeInput("octocat");
    var issued := h.Search();
    assert issued && h.userNameChanges == ["octocat"] && RenderBody(h.apiStatus) == LoaderView;
    var data := Profile(Present("The Octocat"), Undefined, Present("octocat"), Null,
                        Present(10), Present(9), Present(5), Null, Present(""), Undefined, Undefined);
    h.ResolveOk(data);
    var card := h.SuccessCard();
    assert card.name == Present("The Octocat") && card.login == Present("octocat");
    assert card.followers == Present(10) && card.publicRepos == Present(5);
    assert card.titleHeading == None;
  }

  /** A blank search issues nothing and leaves the hero image; a text with
      spaces around it is published and requested as typed; a failure keeps
      the text in the box. */
  method SearchScenario()
  {
    var h := new Home();
    h.ChangeInput(" \t ");
    assert IsBlank(" \t ");
    var issued := h.Search();
    assert !issued && h.apiStatus == Initial && h.fetchedUsernames == [];
    assert RenderBody(h.apiStatus) == HeroView;
    h.ChangeInput(" octocat ");
    assert !IsBlank(" octocat ") by {
      assert !IsWhiteSpace(" octocat "[1]);
    }
    issued := h.Search();
    assert issued && h.userNameChanges == [" octocat "];
    h.Throw();
    assert h.searchInput == " octocat " && RenderBody(h.apiStatus) == FailureView;
  }
}
