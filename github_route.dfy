/** The `GET /api/github` route: validates the user name, fetches the
    profile and the repository list, then walks the repositories one by one,
    fetching each one's language breakdown and collecting languages and
    topics into two insertion-ordered sets. Network responses are inputs. */
module GithubRoute {
  import opened Common
  import opened Strings

  /** A fetch response: its status and the decoded body (read only when the status is 2xx). */
  datatype Fetched<T> = Fetched(status: int, body: T)

  /** The profile fields the route copies from GitHub's user record. */
  datatype Profile = Profile(
    login: string,
    name: Option<string>,
    bio: Option<string>,
    publicRepos: int,
    followers: int,
    following: int,
    createdAt: string,
    avatarUrl: string,
    htmlUrl: string,
    location: Option<string>,
    blog: Option<string>,
    company: Option<string>)

  /** One entry of GitHub's repository list, together with the response of
      the request to its `languages_url` (the keys of the language map, in order). */
  datatype RepoRecord = RepoRecord(
    name: string,
    description: Option<string>,
    language: Option<string>,
    stargazersCount: int,
    forksCount: int,
    topics: Option<seq<string>>,
    updatedAt: string,
    htmlUrl: string,
    languagesFetch: Fetched<seq<string>>)

  /** One entry of the route's `repositories` array. */
  datatype Repository = Repository(
    name: string,
    description: Option<string>,
    language: Option<string>,
    stars: int,
    forks: int,
    topics: Option<seq<string>>,
    updatedAt: string,
    htmlUrl: string)

  /** The JSON body of a successful response. */
  datatype GithubData = GithubData(
    profile: Profile,
    repositories: seq<Repository>,
    languages: seq<string>,
    topics: seq<string>)

  datatype Reply = Data(data: GithubData) | Error(status: int, message: string)

  const UserNotFound := "User not found"
  const RateLimited := "GitHub API rate limit exceeded. Please try again later."
  const ReposFailed := "Failed to fetch repositories"

  const GenericPrefix := "GitHub API error: "

  /** The error thrown when the profile request is not ok: the two fixed
      messages for 404 and 403, otherwise the prefix followed by the status. */
  function ProfileErrorMessage(status: int): (m: string)
    ensures m == UserNotFound <==> status == 404
    ensures m == RateLimited <==> status == 403
    ensures status != 404 && status != 403 ==>
      |GenericPrefix| < |m| && m[..|GenericPrefix|] == GenericPrefix && m[|GenericPrefix|..] == IntToString(status)
  {
    if status == 404 then UserNotFound
    else if status == 403 then RateLimited
    else
      var m := GenericPrefix + IntToString(status);
      // longer than "User not found", and 'e' where the rate-limit message has 'r'
      assert |m| > |UserNotFound| && m[11] != RateLimited[11];
      m
  }

  /** The message alone tells which status the profile request failed with. */
  lemma ProfileErrorIdentifiesStatus(a: int, b: int)
    requires ProfileErrorMessage(a) == ProfileErrorMessage(b)
    ensures a == b
  {
    if a != 404 && a != 403 && b != 404 && b != 403 {
      IntToStringInjective(a, b);
    }
  }

  // ----- JavaScript `Set<string>` as an insertion-ordered, duplicate-free sequence -----

  predicate NoDups(s: seq<string>)
  {
    forall i, j :: 0 <= i < j < |s| ==> s[i] != s[j]
  }

  ghost function Elems(s: seq<string>): set<string>
  {
    set x | x in s
  }

  /** The set `acc` after `set.add(x)` for each `x` of `items` in turn. */
  function Added(acc: seq<string>, items: seq<string>): (r: seq<string>)
    ensures NoDups(acc) ==> NoDups(r)
    ensures Elems(r) == Elems(acc) + Elems(items)
    ensures |acc| <= |r| && r[..|acc|] == acc
  {
    if items == [] then acc
    else
      var p := Added(acc, items[..|items| - 1]);
      var x := items[|items| - 1];
      assert items == items[..|items| - 1] + [x];
      assert Elems(items) == Elems(items[..|items| - 1]) + {x};
      if x in p then p else (assert Elems(p + [x]) == Elems(p) + {x}; p + [x])
  }

  lemma {:induction false} AddedAppend(acc: seq<string>, a: seq<string>, b: seq<string>)
    ensures Added(acc, a + b) == Added(Added(acc, a), b)
  {
    if b == [] {
      assert a + b == a;
    } else {
      var b' := b[..|b| - 1];
      assert (a + b)[..|a + b| - 1] == a + b';
      AddedAppend(acc, a, b');
    }
  }

  /** `items.forEach((x) => set.add(x))`. */
  method AddAll(acc: seq<string>, items: seq<string>) returns (r: seq<string>)
    ensures r == Added(acc, items)
  {
    r := acc;
    var j := 0;
    while j < |items|
      invariant 0 <= j <= |items|
      invariant r == Added(acc, items[..j])
    {
      assert items[..j + 1][..j] == items[..j];
      if items[j] !in r {
        r := r + [items[j]];
      }
      j := j + 1;
    }
    assert items[..j] == items;
  }

  // ----- what each repository contributes -----

  /** Languages a repository contributes: the keys of its language map, or none when that request failed. */
  function LanguagesOf(r: RepoRecord): seq<string>
  {
    if IsOk(r.languagesFetch.status) then r.languagesFetch.body else []
  }

  /** Topics a repository contributes: none when it has no `topics` field. */
  function TopicsOf(r: RepoRecord): seq<string>
  {
    match r.topics
    case None => []
    case Some(t) => t
  }

  /** Every language key the loop adds, in the order it adds them. */
  function LanguageKeys(repos: seq<RepoRecord>): (keys: seq<string>)
    ensures forall x :: x in keys <==> exists i :: 0 <= i < |repos| && x in LanguagesOf(repos[i])
  {
    if repos == [] then []
    else
      var init := repos[..|repos| - 1];
      assert forall i :: 0 <= i < |init| ==> init[i] == repos[i];
      LanguageKeys(init) + LanguagesOf(repos[|repos| - 1])
  }

  /** Every topic the loop adds, in the order it adds them. */
  function TopicList(repos: seq<RepoRecord>): (topics: seq<string>)
    ensures forall x :: x in topics <==> exists i :: 0 <= i < |repos| && x in TopicsOf(repos[i])
  {
    if repos == [] then []
    else
      var init := repos[..|repos| - 1];
      assert forall i :: 0 <= i < |init| ==> init[i] == repos[i];
      TopicList(init) + TopicsOf(repos[|repos| - 1])
  }

  lemma {:induction false} LanguageKeysAppend(a: seq<RepoRecord>, b: seq<RepoRecord>)
    ensures LanguageKeys(a + b) == LanguageKeys(a) + LanguageKeys(b)
  {
    if b == [] {
      assert a + b == a;
    } else {
      assert (a + b)[..|a + b| - 1] == a + b[..|b| - 1];
      LanguageKeysAppend(a, b[..|b| - 1]);
    }
  }

  lemma {:induction false} TopicListAppend(a: seq<RepoRecord>, b: seq<RepoRecord>)
    ensures TopicList(a + b) == TopicList(a) + TopicList(b)
  {
    if b == [] {
      assert a + b == a;
    } else {
      assert (a + b)[..|a + b| - 1] == a + b[..|b| - 1];
      TopicListAppend(a, b[..|b| - 1]);
    }
  }

  lemma LanguageKeysStep(repos: seq<RepoRecord>, i: nat)
    requires i < |repos|
    ensures LanguageKeys(repos[..i + 1]) == LanguageKeys(repos[..i]) + LanguagesOf(repos[i])
  {
    assert repos[..i + 1][..i] == repos[..i];
  }

  lemma TopicListStep(repos: seq<RepoRecord>, i: nat)
    requires i < |repos|
    ensures TopicList(repos[..i + 1]) == TopicList(repos[..i]) + TopicsOf(repos[i])
  {
    assert repos[..i + 1][..i] == repos[..i];
  }

  /** `languages` holds each language of a successfully fetched language map, once, and nothing else. */
  lemma LanguagesAreUnion(repos: seq<RepoRecord>)
    ensures NoDups(Added([], LanguageKeys(repos)))
    ensures forall x :: x in Added([], LanguageKeys(repos)) <==>
      exists i :: 0 <= i < |repos| && IsOk(repos[i].languagesFetch.status) && x in repos[i].languagesFetch.body
  {
    forall x
      ensures x in Added([], LanguageKeys(repos)) <==>
        exists i :: 0 <= i < |repos| && IsOk(repos[i].languagesFetch.status) && x in repos[i].languagesFetch.body
    {
      assert x in Added([], LanguageKeys(repos)) <==> x in Elems(Added([], LanguageKeys(repos)));
    }
  }

  /** `topics` holds each topic of a repository that has a `topics` array, once, and nothing else. */
  lemma TopicsAreUnion(repos: seq<RepoRecord>)
    ensures NoDups(Added([], TopicList(repos)))
    ensures forall x :: x in Added([], TopicList(repos)) <==>
      exists i :: 0 <= i < |repos| && repos[i].topics.Some? && x in repos[i].topics.value
  {
    forall x
      ensures x in Added([], TopicList(repos)) <==>
        exists i :: 0 <= i < |repos| && repos[i].topics.Some? && x in repos[i].topics.value
    {
      assert x in Added([], TopicList(repos)) <==> x in Elems(Added([], TopicList(repos)));
    }
  }

  /** A repository whose language request failed adds exactly what no repository at all would. */
  lemma FailedLanguageFetchIsSkipped(repos: seq<RepoRecord>, i: nat)
    requires i < |repos| && !IsOk(repos[i].languagesFetch.status)
    ensures LanguageKeys(repos) == LanguageKeys(repos[..i] + repos[i + 1..])
  {
    var front, back := repos[..i], repos[i + 1..];
    var withR := repos[..i + 1];
    assert repos == withR + back;
    LanguageKeysStep(repos, i);
    assert LanguageKeys(withR) == LanguageKeys(front);
    LanguageKeysAppend(withR, back);
    LanguageKeysAppend(front, back);
  }

  /** A repository without `topics` adds exactly what no repository at all would. */
  lemma TopiclessRepoIsSkipped(repos: seq<RepoRecord>, i: nat)
    requires i < |repos| && repos[i].topics.None?
    ensures TopicList(repos) == TopicList(repos[..i] + repos[i + 1..])
  {
    var front, back := repos[..i], repos[i + 1..];
    var withR := repos[..i + 1];
    assert repos == withR + back;
    TopicListStep(repos, i);
    assert TopicList(withR) == TopicList(front);
    TopicListAppend(withR, back);
    TopicListAppend(front, back);
  }

  lemma AggregateStep(repos: seq<RepoRecord>, i: nat)
    requires i < |repos|
    ensures Added([], LanguageKeys(repos[..i + 1])) == Added(Added([], LanguageKeys(repos[..i])), LanguagesOf(repos[i]))
    ensures Added([], TopicList(repos[..i + 1])) == Added(Added([], TopicList(repos[..i])), TopicsOf(repos[i]))
    ensures !IsOk(repos[i].languagesFetch.status) ==> LanguagesOf(repos[i]) == []
    ensures repos[i].topics.None? ==> TopicsOf(repos[i]) == []
  {
    LanguageKeysStep(repos, i);
    TopicListStep(repos, i);
    AddedAppend([], LanguageKeys(repos[..i]), LanguagesOf(repos[i]));
    AddedAppend([], TopicList(repos[..i]), TopicsOf(repos[i]));
  }

  /** The sequential `for…of` loop over the repository list. */
  method Aggregate(repos: seq<RepoRecord>) returns (languages: seq<string>, topics: seq<string>)
    ensures languages == Added([], LanguageKeys(repos))
    ensures topics == Added([], TopicList(repos))
  {
    languages, topics := [], [];
    var i := 0;
    while i < |repos|
      invariant 0 <= i <= |repos|
      invariant languages == Added([], LanguageKeys(repos[..i]))
      invariant topics == Added([], TopicList(repos[..i]))
    {
      var repo := repos[i];
      AggregateStep(repos, i);
      if IsOk(repo.languagesFetch.status) {
        languages := AddAll(languages, repo.languagesFetch.body);
      }
      if repo.topics.Some? {
        topics := AddAll(topics, repo.topics.value);
      }
      i := i + 1;
    }
    assert repos[..i] == repos;
  }

  function Summarize(r: RepoRecord): Repository
  {
    Repository(r.name, r.description, r.language, r.stargazersCount, r.forksCount, r.topics, r.updatedAt, r.htmlUrl)
  }

  /** `reposData.map(...)`: one entry per repository, in the same order, field by field. */
  function Project(repos: seq<RepoRecord>): (rs: seq<Repository>)
    ensures |rs| == |repos|
    ensures forall i :: 0 <= i < |repos| ==>
      rs[i].name == repos[i].name && rs[i].language == repos[i].language &&
      rs[i].description == repos[i].description && rs[i].stars == repos[i].stargazersCount &&
      rs[i].forks == repos[i].forksCount && rs[i].topics == repos[i].topics &&
      rs[i].updatedAt == repos[i].updatedAt && rs[i].htmlUrl == repos[i].htmlUrl
  {
    if repos == [] then [] else [Summarize(repos[0])] + Project(repos[1..])
  }

  /** A request to GitHub: it was answered, or it threw (network failure,
      unreadable JSON body) with the error's message. */
  datatype Call<T> = Answered(response: Fetched<T>) | Threw(message: string)

  /** The route. `calls` counts the requests sent to GitHub. Any exception
      inside the `try` becomes a 500 carrying its message. */
  method Get(username: Option<string>, user: Call<Profile>, repos: Call<seq<RepoRecord>>)
    returns (reply: Reply, calls: nat)
    ensures !Truthy(username) ==> reply == Error(400, "Username is required") && calls == 0
    ensures Truthy(username) && user.Threw? ==> reply == Error(500, user.message) && calls == 1
    ensures Truthy(username) && user.Answered? && !IsOk(user.response.status) ==>
      reply == Error(500, ProfileErrorMessage(user.response.status)) && calls == 1
    ensures Truthy(username) && user.Answered? && IsOk(user.response.status) && repos.Threw? ==>
      reply == Error(500, repos.message) && calls == 2
    ensures Truthy(username) && user.Answered? && IsOk(user.response.status) &&
            repos.Answered? && !IsOk(repos.response.status) ==>
      reply == Error(500, ReposFailed) && calls == 2
    ensures Truthy(username) && user.Answered? && IsOk(user.response.status) &&
            repos.Answered? && IsOk(repos.response.status) ==>
      var rs := repos.response.body;
      calls == 2 + |rs| &&
      reply == Data(GithubData(user.response.body, Project(rs),
                               Added([], LanguageKeys(rs)), Added([], TopicList(rs))))
    ensures reply.Error? <==> !(Truthy(username) && user.Answered? && IsOk(user.response.status) &&
                                repos.Answered? && IsOk(repos.response.status))
  {
    if !Truthy(username) {
      return Error(400, "Username is required"), 0;
    }
    calls := 1;
    if user.Threw? {
      return Error(500, user.message), calls;
    }
    if !IsOk(user.response.status) {
      return Error(500, ProfileErrorMessage(user.response.status)), calls;
    }
    calls := 2;
    if repos.Threw? {
      return Error(500, repos.message), calls;
    }
    if !IsOk(repos.response.status) {
      return Error(500, ReposFailed), calls;
    }
    var rs := repos.response.body;
    var languages, topics := Aggregate(rs);
    calls := calls + |rs|;
    reply := Data(GithubData(user.response.body, Project(rs), languages, topics));
  }
}
