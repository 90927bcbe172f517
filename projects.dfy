/**
 * The project API's response assembly: the ordering of the project list, the
 * title-keyed follower, document and language maps, and the numbered map of a
 * project's source repositories.
 *
 * Query results are given as sequences in the order the store returns them;
 * the counts and language breakdown of a project are given with it.
 */
module Projects {
  import opened Common

  datatype Repository = Repository(url: string, name: string)

  datatype Project = Project(
    title: string,
    slug: string,
    status: string,
    lastGithubUpdate: Option<int>,
    commitCount: Option<int>,
    followerCount: nat,
    documentCount: nat,
    languages: seq<string>,
    sourceRepositories: seq<Repository>,
    manager: Option<string>)  // the owning user's display name; None when the project has no user

  // ---------------------------------------------------------------------
  // The ordering of the project list

  datatype Order = Before | Same | After

  function Flip(o: Order): Order {
    match o
    case Before => After
    case Same => Same
    case After => Before
  }

  /** Ascending order on text, character by character, a prefix first. */
  function CompareText(a: string, b: string): Order {
    if a == [] && b == [] then Same
    else if a == [] then Before
    else if b == [] then After
    else if a[0] < b[0] then Before
    else if a[0] > b[0] then After
    else CompareText(a[1..], b[1..])
  }

  /** Descending order on an optional number, with the missing values after every present one. */
  function CompareDescNullsLast(a: Option<int>, b: Option<int>): Order {
    match (a, b)
    case (Some(x), Some(y)) => if x > y then Before else if x < y then After else Same
    case (Some(_), None) => Before
    case (None, Some(_)) => After
    case (None, None) => Same
  }

  /** The next key decides only a tie on the previous one. */
  function Then(first: Order, next: Order): Order {
    if first == Same then next else first
  }

  /** Status ascending, then last GitHub update descending, then commit count descending; nulls last. */
  function CompareProjects(a: Project, b: Project): (o: Order)
    ensures o == Same <==> a.status == b.status && a.lastGithubUpdate == b.lastGithubUpdate && a.commitCount == b.commitCount
  {
    CompareTextSame(a.status, b.status);
    Then(CompareText(a.status, b.status),
      Then(CompareDescNullsLast(a.lastGithubUpdate, b.lastGithubUpdate),
        CompareDescNullsLast(a.commitCount, b.commitCount)))
  }

  /** a may come before b in the list. */
  predicate Precedes(a: Project, b: Project) {
    CompareProjects(a, b) != After
  }

  predicate Ordered(ps: seq<Project>) {
    forall i, j :: 0 <= i < j < |ps| ==> Precedes(ps[i], ps[j])
  }

  lemma {:induction false} CompareTextFlip(a: string, b: string)
    ensures CompareText(b, a) == Flip(CompareText(a, b))
  {
    if a != [] && b != [] && a[0] == b[0] {
      CompareTextFlip(a[1..], b[1..]);
    }
  }

  lemma {:induction false} CompareTextSame(a: string, b: string)
    ensures CompareText(a, b) == Same <==> a == b
  {
    if a != [] && b != [] && a[0] == b[0] {
      CompareTextSame(a[1..], b[1..]);
      assert a == [a[0]] + a[1..] && b == [b[0]] + b[1..];
    }
  }

  lemma {:induction false} CompareTextTransitive(a: string, b: string, c: string)
    requires CompareText(a, b) == Before && CompareText(b, c) == Before
    ensures CompareText(a, c) == Before
  {
    if a != [] && b != [] && c != [] && a[0] == b[0] == c[0] {
      CompareTextTransitive(a[1..], b[1..], c[1..]);
    }
  }

  /** Any two projects are comparable, one way or both. */
  lemma PrecedesTotal(a: Project, b: Project)
    ensures Precedes(a, b) || Precedes(b, a)
  {
    CompareTextFlip(a.status, b.status);
  }

  /** The list order is transitive. */
  lemma PrecedesTransitive(a: Project, b: Project, c: Project)
    requires Precedes(a, b) && Precedes(b, c)
    ensures Precedes(a, c)
  {
    CompareTextSame(a.status, b.status);
    CompareTextSame(b.status, c.status);
    CompareTextSame(a.status, c.status);
    if CompareText(a.status, b.status) == Before && CompareText(b.status, c.status) == Before {
      CompareTextTransitive(a.status, b.status, c.status);
    }
  }

  /** The three keys, each deciding only ties of the one before. */
  lemma OrderingKeys(a: Project, b: Project)
    ensures CompareText(a.status, b.status) == Before ==> CompareProjects(a, b) == Before
    ensures a.status == b.status && a.lastGithubUpdate.Some? && b.lastGithubUpdate.None? ==>
      CompareProjects(a, b) == Before
    ensures (a.status == b.status && a.lastGithubUpdate == b.lastGithubUpdate
             && a.commitCount.Some? && b.commitCount.None?) ==> CompareProjects(a, b) == Before
    ensures (a.status == b.status && a.lastGithubUpdate.Some? && b.lastGithubUpdate.Some?
             && a.lastGithubUpdate.value > b.lastGithubUpdate.value) ==> CompareProjects(a, b) == Before
    ensures (a.status == b.status && a.lastGithubUpdate == b.lastGithubUpdate
             && a.commitCount.Some? && b.commitCount.Some?
             && a.commitCount.value > b.commitCount.value) ==> CompareProjects(a, b) == Before
  {
    CompareTextSame(a.status, b.status);
  }

  /** Inserts p into an ordered list after the projects that precede it strictly. */
  function Insert(p: Project, ps: seq<Project>): seq<Project> {
    if ps == [] || Precedes(p, ps[0]) then [p] + ps else [ps[0]] + Insert(p, ps[1..])
  }

  lemma {:induction false} InsertOrdered(p: Project, ps: seq<Project>)
    requires Ordered(ps)
    ensures multiset(Insert(p, ps)) == multiset(ps) + multiset{p}
    ensures Ordered(Insert(p, ps))
  {
    if ps == [] {
    } else if Precedes(p, ps[0]) {
      forall j | 0 <= j < |ps| ensures Precedes(p, ps[j]) {
        if j > 0 {
          PrecedesTransitive(p, ps[0], ps[j]);
        }
      }
    } else {
      PrecedesTotal(p, ps[0]);
      InsertOrdered(p, ps[1..]);
      var rest := Insert(p, ps[1..]);
      assert ps == [ps[0]] + ps[1..];
      forall j | 0 <= j < |rest| ensures Precedes(ps[0], rest[j]) {
        assert rest[j] in multiset(rest);
        if rest[j] != p {
          assert rest[j] in multiset(ps[1..]);
          var k :| 0 <= k < |ps[1..]| && ps[1..][k] == rest[j];
          assert ps[k + 1] == rest[j];
        }
      }
    }
  }

  /** The project list in the query's order: one ordered permutation of all projects. */
  function OrderedProjects(ps: seq<Project>): (r: seq<Project>)
    ensures multiset(r) == multiset(ps)
    ensures Ordered(r)
  {
    if ps == [] then []
    else
      var rest := OrderedProjects(ps[1..]);
      InsertOrdered(ps[0], rest);
      assert ps == [ps[0]] + ps[1..];
      Insert(ps[0], rest)
  }

  // ---------------------------------------------------------------------
  // The title-keyed maps

  function Followers(p: Project): nat {
    p.followerCount
  }

  function Documents(p: Project): nat {
    p.documentCount
  }

  function Languages(p: Project): seq<string> {
    p.languages
  }

  function Titles(ps: seq<Project>): set<string> {
    set p | p in ps :: p.title
  }

  /** The map a merge loop over ps builds: each project's metric under its title, later projects overwriting. */
  function ByTitle<V>(ps: seq<Project>, metric: Project -> V): map<string, V> {
    if ps == [] then map[]
    else ByTitle(ps[..|ps| - 1], metric)[ps[|ps| - 1].title := metric(ps[|ps| - 1])]
  }

  /** The map has exactly one entry per title. */
  lemma {:induction false} ByTitleKeys<V>(ps: seq<Project>, metric: Project -> V)
    ensures ByTitle(ps, metric).Keys == Titles(ps)
  {
    if ps != [] {
      var front := ps[..|ps| - 1];
      ByTitleKeys(front, metric);
      assert ps == front + [ps[|ps| - 1]];
      assert Titles(ps) == Titles(front) + {ps[|ps| - 1].title};
    }
  }

  /** Under a title, the map holds the metric of the last project with that title. */
  lemma {:induction false} ByTitleLastWins<V>(ps: seq<Project>, metric: Project -> V, i: nat)
    requires i < |ps|
    requires forall j :: i < j < |ps| ==> ps[j].title != ps[i].title
    ensures ps[i].title in ByTitle(ps, metric)
    ensures ByTitle(ps, metric)[ps[i].title] == metric(ps[i])
  {
    if i < |ps| - 1 {
      ByTitleLastWins(ps[..|ps| - 1], metric, i);
    }
  }

  datatype ProjectList = ProjectList(
    projects: seq<Project>,
    followers: map<string, nat>,
    documents: map<string, nat>,
    languages: map<string, seq<string>>)

  /**
   * The project list: all projects in the query's order, and the three maps
   * built by one merge loop over all projects.
   */
  method ListProjects(all: seq<Project>) returns (r: ProjectList)
    ensures multiset(r.projects) == multiset(all) && Ordered(r.projects)
    ensures r.followers == ByTitle(all, Followers)
    ensures r.documents == ByTitle(all, Documents)
    ensures r.languages == ByTitle(all, Languages)
    ensures r.followers.Keys == r.documents.Keys == r.languages.Keys == Titles(all)
  {
    var followers: map<string, nat> := map[];
    var documents: map<string, nat> := map[];
    var languages: map<string, seq<string>> := map[];
    var i := 0;
    while i < |all|
      invariant 0 <= i <= |all|
      invariant followers == ByTitle(all[..i], Followers)
      invariant documents == ByTitle(all[..i], Documents)
      invariant languages == ByTitle(all[..i], Languages)
    {
      var project := all[i];
      assert all[..i + 1][..i] == all[..i];
      followers := followers[project.title := project.followerCount];
      documents := documents[project.title := project.documentCount];
      languages := languages[project.title := project.languages];
      i := i + 1;
    }
    assert all[..i] == all;
    ByTitleKeys(all, Followers);
    ByTitleKeys(all, Documents);
    ByTitleKeys(all, Languages);
    r := ProjectList(OrderedProjects(all), followers, documents, languages);
  }

  /** The languages endpoint: the same merge loop, for the language map only. */
  method ListLanguages(all: seq<Project>) returns (languages: map<string, seq<string>>)
    ensures languages == ByTitle(all, Languages)
    ensures languages.Keys == Titles(all)
  {
    languages := map[];
    var i := 0;
    while i < |all|
      invariant 0 <= i <= |all|
      invariant languages == ByTitle(all[..i], Languages)
    {
      var project := all[i];
      assert all[..i + 1][..i] == all[..i];
      languages := languages[project.title := project.languages];
      i := i + 1;
    }
    assert all[..i] == all;
    ByTitleKeys(all, Languages);
  }

  // ---------------------------------------------------------------------
  // The project detail

  function UrlKey(i: nat): string {
    "url" + NatToString(i)
  }

  function NameKey(i: nat): string {
    "name" + NatToString(i)
  }

  /** The numbered repository map: url<i> and name<i> of the i-th repository, counting from 1. */
  function NumberedRepositories(repos: seq<Repository>): map<string, string> {
    if repos == [] then map[]
    else
      var n := |repos|;
      NumberedRepositories(repos[..n - 1])[UrlKey(n) := repos[n - 1].url][NameKey(n) := repos[n - 1].name]
  }

  lemma UrlKeyInjective(i: nat, j: nat)
    ensures UrlKey(i) == UrlKey(j) ==> i == j
  {
    if UrlKey(i) == UrlKey(j) {
      assert NatToString(i) == UrlKey(i)[3..];
      NatToStringInjective(i, j);
    }
  }

  lemma NameKeyInjective(i: nat, j: nat)
    ensures NameKey(i) == NameKey(j) ==> i == j
  {
    if NameKey(i) == NameKey(j) {
      assert NatToString(i) == NameKey(i)[4..];
      NatToStringInjective(i, j);
    }
  }

  lemma UrlKeyIsNotNameKey(i: nat, j: nat)
    ensures UrlKey(i) != NameKey(j)
  {
    assert UrlKey(i)[0] == 'u' && NameKey(j)[0] == 'n';
  }

  /** The keys are url<i> and name<i> for i from 1 to the number of repositories, and nothing else. */
  lemma {:induction false} NumberedRepositoriesKeys(repos: seq<Repository>)
    ensures forall k :: k in NumberedRepositories(repos) <==>
      exists i :: 1 <= i <= |repos| && (k == UrlKey(i) || k == NameKey(i))
  {
    if repos != [] {
      NumberedRepositoriesKeys(repos[..|repos| - 1]);
    }
  }

  /** The i-th repository's url and name sit under url<i> and name<i>. */
  lemma {:induction false} NumberedRepositoriesAt(repos: seq<Repository>, i: nat)
    requires 1 <= i <= |repos|
    ensures UrlKey(i) in NumberedRepositories(repos) && NumberedRepositories(repos)[UrlKey(i)] == repos[i - 1].url
    ensures NameKey(i) in NumberedRepositories(repos) && NumberedRepositories(repos)[NameKey(i)] == repos[i - 1].name
  {
    var n := |repos|;
    if i < n {
      NumberedRepositoriesAt(repos[..n - 1], i);
      UrlKeyInjective(i, n);
      NameKeyInjective(i, n);
      UrlKeyIsNotNameKey(i, n);
      UrlKeyIsNotNameKey(n, i);
    } else {
      UrlKeyIsNotNameKey(n, n);
    }
  }

  /** There are exactly two keys per repository. */
  lemma {:induction false} NumberedRepositoriesSize(repos: seq<Repository>)
    ensures |NumberedRepositories(repos)| == 2 * |repos|
  {
    var n := |repos|;
    if n > 0 {
      var front := NumberedRepositories(repos[..n - 1]);
      NumberedRepositoriesSize(repos[..n - 1]);
      NumberedRepositoriesKeys(repos[..n - 1]);
      UrlKeyIsNotNameKey(n, n);
      if UrlKey(n) in front {
        var i :| 1 <= i <= n - 1 && (UrlKey(n) == UrlKey(i) || UrlKey(n) == NameKey(i));
        UrlKeyInjective(n, i);
        UrlKeyIsNotNameKey(n, i);
      }
      if NameKey(n) in front {
        var i :| 1 <= i <= n - 1 && (NameKey(n) == UrlKey(i) || NameKey(n) == NameKey(i));
        NameKeyInjective(n, i);
        UrlKeyIsNotNameKey(i, n);
      }
    }
  }

  /** The numbering loop: a counter from 1, one url and one name entry per repository. */
  method NumberSourceRepositories(repos: seq<Repository>) returns (numbered: map<string, string>)
    ensures numbered == NumberedRepositories(repos)
  {
    numbered := map[];
    var i := 1;
    var k := 0;
    while k < |repos|
      invariant 0 <= k <= |repos|
      invariant i == k + 1
      invariant numbered == NumberedRepositories(repos[..k])
    {
      var repo := repos[k];
      assert repos[..k + 1][..k] == repos[..k];
      numbered := numbered[UrlKey(i) := repo.url][NameKey(i) := repo.name];
      i := i + 1;
      k := k + 1;
    }
    assert i == |repos| + 1;
    assert repos[..k] == repos;
  }

  /** The first project with the slug, as the lookup by slug returns it; None when there is none. */
  function FindBySlug(all: seq<Project>, slug: string): (r: Option<Project>)
    ensures r.None? <==> forall i :: 0 <= i < |all| ==> all[i].slug != slug
    ensures r.Some? ==> exists i :: 0 <= i < |all| && all[i] == r.value
    ensures r.Some? ==> r.value.slug == slug
  {
    if all == [] then None
    else if all[0].slug == slug then Some(all[0])
    else
      var r := FindBySlug(all[1..], slug);
      assert forall i :: 1 <= i < |all| ==> all[i] == all[1..][i - 1];
      r
  }

  /** A call on nil: the lookup found no project, or the project has no user. */
  datatype ApiError = NilProject | NilUser

  datatype Detail = Detail(project: Project, projectManager: string, sourceRepositories: map<string, string>)

  /** The detail of the project with a slug, its manager's name and its numbered repositories. */
  method ShowProject(all: seq<Project>, slug: string) returns (r: Result<Detail, ApiError>)
    ensures FindBySlug(all, slug).None? ==> r == Err(NilProject)
    ensures FindBySlug(all, slug).Some? ==>
      var project := FindBySlug(all, slug).value;
      if project.manager.None? then r == Err(NilUser)
      else r == Ok(Detail(project, project.manager.value, NumberedRepositories(project.sourceRepositories)))
  {
    var found := FindBySlug(all, slug);
    if found.None? {
      return Err(NilProject);
    }
    var project := found.value;
    var repositories := NumberSourceRepositories(project.sourceRepositories);
    if project.manager.None? {
      return Err(NilUser);
    }
    r := Ok(Detail(project, project.manager.value, repositories));
  }
}
