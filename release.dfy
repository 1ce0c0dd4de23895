/**
 * org.jreleaser.model.Release: the release section of a JReleaser model,
 * holding at most one configuration per hosting backend.
 */
module Model {
  import opened Wrappers
  import LinkedMap

  /** The settings inside a hosting configuration; opaque to this model. */
  type Payload = string

  datatype Github = Github(payload: Payload)
  datatype Gitlab = Gitlab(payload: Payload)
  datatype Gitea = Gitea(payload: Payload)

  /** GitService, the common supertype of the three hosting configurations. */
  datatype GitService =
    | GithubService(github: Github)
    | GitlabService(gitlab: Gitlab)
    | GiteaService(gitea: Gitea)

  const GithubKey: string := "github"
  const GitlabKey: string := "gitlab"
  const GiteaKey: string := "gitea"

  /** The map key under which `asMap` stores a configuration of this kind. */
  function KeyOf(s: GitService): string {
    match s
    case GithubService(_) => GithubKey
    case GitlabService(_) => GitlabKey
    case GiteaService(_) => GiteaKey
  }

  /** Position of a key in the order github, gitlab, gitea. */
  function KeyRank(key: string): nat {
    if key == GithubKey then 0 else if key == GitlabKey then 1 else 2
  }

  /**
   * The entries of `asMap`. The value stored under each key stands for that
   * configuration's own `asMap()` output, which is not modelled.
   */
  type Entries = seq<(string, GitService)>

  class Release {
    var github: Option<Github>
    var gitlab: Option<Gitlab>
    var gitea: Option<Gitea>

    /** The implicit no-argument constructor: no backend configured. */
    constructor ()
      ensures github == None && gitlab == None && gitea == None
    {
      github, gitlab, gitea := None, None, None;
    }

    /** `setAll`: copy all three configurations of `release` into this one. */
    method SetAll(release: Release)
      modifies this
      ensures github == old(release.github)
      ensures gitlab == old(release.gitlab)
      ensures gitea == old(release.gitea)
      ensures GetGitService() == old(release.GetGitService())
    {
      github := release.github;
      gitlab := release.gitlab;
      gitea := release.gitea;
    }

    method SetGithub(github: Option<Github>)
      modifies this`github
      ensures this.github == github
      ensures gitlab == old(gitlab) && gitea == old(gitea)
    {
      this.github := github;
    }

    method SetGitlab(gitlab: Option<Gitlab>)
      modifies this`gitlab
      ensures this.gitlab == gitlab
      ensures github == old(github) && gitea == old(gitea)
    {
      this.gitlab := gitlab;
    }

    method SetGitea(gitea: Option<Gitea>)
      modifies this`gitea
      ensures this.gitea == gitea
      ensures github == old(github) && gitlab == old(gitlab)
    {
      this.gitea := gitea;
    }

    /** True when `s` is the configuration currently held in its own field. */
    predicate Holds(s: GitService)
      reads this
    {
      match s
      case GithubService(g) => github == Some(g)
      case GitlabService(g) => gitlab == Some(g)
      case GiteaService(g) => gitea == Some(g)
    }

    /** How many of the three configurations are set (non-null). */
    function ConfiguredCount(): (n: nat)
      reads this
      ensures n <= 3
      ensures n == 0 <==> github.None? && gitlab.None? && gitea.None?
    {
      (if github.Some? then 1 else 0)
      + (if gitlab.Some? then 1 else 0)
      + (if gitea.Some? then 1 else 0)
    }

    /**
     * `getGitService`: the first configured backend in the precedence order
     * github, gitlab, gitea; null when none is configured.
     */
    function GetGitService(): (r: Option<GitService>)
      reads this
      ensures github.Some? ==> r == Some(GithubService(github.value))
      ensures github.None? && gitlab.Some? ==> r == Some(GitlabService(gitlab.value))
      ensures github.None? && gitlab.None? && gitea.Some? ==> r == Some(GiteaService(gitea.value))
      ensures r.None? <==> ConfiguredCount() == 0
      ensures r.Some? ==> Holds(r.value)
      ensures r.Some? ==> forall s :: Holds(s) ==> KeyRank(KeyOf(r.value)) <= KeyRank(KeyOf(s))
    {
      if github.Some? then Some(GithubService(github.value))
      else if gitlab.Some? then Some(GitlabService(gitlab.value))
      else if gitea.Some? then Some(GiteaService(gitea.value))
      else None
    }

    /** The entries `asMap` yields, one per configured backend, in the order github, gitlab, gitea. */
    function ExpectedEntries(): Entries
      reads this
    {
      (if github.Some? then [(GithubKey, GithubService(github.value))] else [])
      + (if gitlab.Some? then [(GitlabKey, GitlabService(gitlab.value))] else [])
      + (if gitea.Some? then [(GiteaKey, GiteaService(gitea.value))] else [])
    }

    /**
     * `asMap`: a LinkedHashMap filled with github, gitlab and gitea in that
     * order, each only when it is configured.
     */
    method AsMap() returns (m: Entries)
      ensures m == ExpectedEntries()
    {
      var a: Entries := [];
      if github.Some? {
        a := LinkedMap.Put(a, GithubKey, GithubService(github.value));
      }
      assert a == (if github.Some? then [(GithubKey, GithubService(github.value))] else []);
      var b := a;
      if gitlab.Some? {
        assert GitlabKey !in LinkedMap.Keys(a);
        b := LinkedMap.Put(a, GitlabKey, GitlabService(gitlab.value));
      }
      assert b == a + (if gitlab.Some? then [(GitlabKey, GitlabService(gitlab.value))] else []);
      m := b;
      if gitea.Some? {
        assert GiteaKey !in LinkedMap.Keys(b);
        m := LinkedMap.Put(b, GiteaKey, GiteaService(gitea.value));
      }
      assert m == b + (if gitea.Some? then [(GiteaKey, GiteaService(gitea.value))] else []);
    }

    /** No key of `asMap` occurs twice. */
    lemma EntriesHaveDistinctKeys()
      ensures LinkedMap.DistinctKeys(ExpectedEntries())
    {
    }

    /** `asMap` has one entry per configured backend, so it is empty when none is. */
    lemma EntriesCountConfigured()
      ensures |ExpectedEntries()| == ConfiguredCount()
      ensures ExpectedEntries() == [] <==> github.None? && gitlab.None? && gitea.None?
    {
    }

    /** Key "github" is present exactly when github is configured, and maps to it; likewise below. */
    lemma EntriesLookupGithub()
      ensures LinkedMap.Get(ExpectedEntries(), GithubKey) == (if github.Some? then Some(GithubService(github.value)) else None)
    {
    }

    lemma EntriesLookupGitlab()
      ensures LinkedMap.Get(ExpectedEntries(), GitlabKey) == (if gitlab.Some? then Some(GitlabService(gitlab.value)) else None)
    {
    }

    lemma EntriesLookupGitea()
      ensures LinkedMap.Get(ExpectedEntries(), GiteaKey) == (if gitea.Some? then Some(GiteaService(gitea.value)) else None)
    {
    }

    /** Every entry is keyed by its backend's kind and holds that backend's current configuration. */
    lemma EntriesKeyedByKind()
      ensures var m := ExpectedEntries();
        forall i :: 0 <= i < |m| ==> m[i].0 == KeyOf(m[i].1) && Holds(m[i].1)
    {
    }

    /** The keys come in the order github, gitlab, gitea. */
    lemma EntriesInKeyOrder()
      ensures var m := ExpectedEntries();
        forall i, j :: 0 <= i < j < |m| ==> KeyRank(m[i].0) < KeyRank(m[j].0)
    {
    }
  }
}
