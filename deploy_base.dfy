/**
  * The build's base path (vite.config.ts): a project site on GitHub Pages
  * is served under "/<repo>/", everything else under "/". The two
  * environment variables are inputs, `None` when unset.
  */
module DeployBase {
  import opened Options
  import opened JsText

  const PagesSuffix: string := ".github.io"

  /**
    * `GITHUB_REPOSITORY?.split("/")?.[1]`: the segment after the first "/",
    * up to any second "/"; absent when the variable is unset or has no "/".
    */
  function RepoName(githubRepository: Option<string>): (r: Option<string>)
    ensures r.None? <==> githubRepository.None? || '/' !in githubRepository.value
    ensures r.Some? ==> '/' !in r.value
  {
    match githubRepository
    case None => None
    case Some(s) =>
      var parts := Split(s, '/');
      if |parts| >= 2 then Some(parts[1]) else None
  }

  /** "owner/name" and "owner/name/more" both name the repository `name`. */
  lemma {:induction false} RepoNameOfSlug(owner: string, name: string, rest: Option<string>)
    requires '/' !in owner && '/' !in name
    ensures var slug := owner + "/" + name + (if rest.Some? then "/" + rest.value else "");
      RepoName(Some(slug)) == Some(name)
  {
    var tail := if rest.Some? then "/" + rest.value else "";
    var slug := owner + "/" + name + tail;
    assert slug[..|owner|] == owner;
    SplitHead(slug, '/', |owner|);
    var after := slug[|owner| + 1..];
    assert after == name + tail;
    assert after[..|name|] == name;
    SplitHead(after, '/', |name|);
  }

  /** `isUserOrOrgPages`: the repository name is non-empty and ends with ".github.io". */
  predicate IsUserOrOrgPages(repoName: Option<string>) {
    repoName.Some? && repoName.value != [] && EndsWith(repoName.value, PagesSuffix)
  }

  /**
    * `base`: "/<repo>/" for a GitHub Pages build (`GITHUB_PAGES` exactly
    * "true") of a repository with a non-empty name that is not a user or
    * organisation site; "/" otherwise.
    */
  function Base(githubRepository: Option<string>, githubPages: Option<string>): (base: string)
    ensures githubPages != Some("true") ==> base == "/"
    ensures var name := RepoName(githubRepository);
      base != "/" <==> githubPages == Some("true") && name.Some? && name.value != [] && !IsUserOrOrgPages(name)
    ensures |base| >= 1 && base[0] == '/' && base[|base| - 1] == '/'
  {
    var repoName := RepoName(githubRepository);
    var isGitHubPagesBuild := githubPages == Some("true");
    if isGitHubPagesBuild && repoName.Some? && repoName.value != [] && !IsUserOrOrgPages(repoName) then
      "/" + repoName.value + "/"
    else "/"
  }

  /** A base other than "/" holds exactly the repository name between its slashes. */
  lemma BaseNamesRepository(githubRepository: Option<string>, githubPages: Option<string>)
    requires Base(githubRepository, githubPages) != "/"
    ensures var base := Base(githubRepository, githubPages);
      RepoName(githubRepository).Some? && base[1..|base| - 1] == RepoName(githubRepository).value
  {
    var base := Base(githubRepository, githubPages);
    assert base == "/" + RepoName(githubRepository).value + "/";
    assert base[1..|base| - 1] == RepoName(githubRepository).value;
  }

  /** A project repository built for Pages is served under its name. */
  lemma {:induction false} ProjectSiteBase(owner: string, name: string)
    requires '/' !in owner && '/' !in name && name != [] && !EndsWith(name, PagesSuffix)
    ensures Base(Some(owner + "/" + name), Some("true")) == "/" + name + "/"
  {
    RepoNameOfSlug(owner, name, None);
    assert owner + "/" + name + "" == owner + "/" + name;
  }

  /** A user or organisation site ("owner/owner.github.io") is served at the root. */
  lemma {:induction false} UserSiteBase(owner: string)
    requires '/' !in owner
    ensures Base(Some(owner + "/" + owner + PagesSuffix), Some("true")) == "/"
  {
    var name := owner + PagesSuffix;
    assert '/' !in name by {
      assert forall i :: 0 <= i < |PagesSuffix| ==> PagesSuffix[i] != '/';
      assert forall i :: |owner| <= i < |name| ==> name[i] == PagesSuffix[i - |owner|];
    }
    RepoNameOfSlug(owner, name, None);
    assert owner + "/" + name + "" == owner + "/" + owner + PagesSuffix;
    assert name[|name| - |PagesSuffix|..] == PagesSuffix;
  }

  datatype Plugin = React | ComponentTagger

  /** `plugins`: React always, first; the component tagger only in development mode. */
  function Plugins(mode: string): (plugins: seq<Plugin>)
    ensures |plugins| >= 1 && plugins[0] == React
    ensures ComponentTagger in plugins <==> mode == "development"
  {
    [React] + if mode == "development" then [ComponentTagger] else []
  }
}
