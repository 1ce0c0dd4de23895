/**
 * org.jreleaser.releaser.Releasers: turn a model's release section into a
 * releaser builder. Only GitHub is wired up; the GitLab and Gitea branches
 * of the source are commented out.
 */
module Releasers {
  import opened Wrappers
  import opened Util
  import opened Model

  /** The builder returned by `GithubReleaser.builder(logger)`; its internals are opaque. */
  datatype ReleaserBuilder = GithubReleaserBuilder(logger: Logger)

  /** The exception `findReleaser` throws. */
  datatype ReleaserError = IllegalArgument(message: string)

  const NoReleaserMessage: string := "No suitable git releaser has been configured"

  /**
   * `findReleaser(logger, model)`, given `model.getRelease()`: a GitHub
   * releaser builder when GitHub is configured, otherwise the
   * IllegalArgumentException, whatever GitLab and Gitea hold.
   */
  function FindReleaser(logger: Logger, release: Release): (r: Result<ReleaserBuilder, ReleaserError>)
    reads release
    ensures r.Success? <==> release.github.Some?
    ensures r.Success? ==> r.value == GithubReleaserBuilder(logger)
    ensures r.Failure? ==> r.error == IllegalArgument(NoReleaserMessage)
    ensures r.Success? ==> release.GetGitService() == Some(GithubService(release.github.value))
  {
    if release.github.Some? then Success(GithubReleaserBuilder(logger))
    else Failure(IllegalArgument(NoReleaserMessage))
  }

  /**
   * A GitLab or Gitea configuration alone is rejected, although
   * `getGitService` would select it.
   */
  lemma OnlyGithubIsAccepted(logger: Logger, release: Release)
    requires release.github.None?
    requires release.gitlab.Some? || release.gitea.Some?
    ensures FindReleaser(logger, release) == Failure(IllegalArgument(NoReleaserMessage))
    ensures release.GetGitService().Some? && !release.GetGitService().value.GithubService?
  {
  }

  /** The outcome depends only on whether GitHub is configured. */
  lemma IgnoresGitlabAndGitea(logger: Logger, a: Release, b: Release)
    requires a.github.Some? == b.github.Some?
    ensures FindReleaser(logger, a) == FindReleaser(logger, b)
  {
  }
}
