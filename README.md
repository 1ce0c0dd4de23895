# JReleaser provider core, modelled in Dafny

This project models three small pieces of JReleaser's release pipeline:

- **Release** (`release.dfy`, module `Model`): the release section of a
  JReleaser model. It holds optional GitHub, GitLab and Gitea hosting
  configurations. `getGitService` picks the first configured one in the order
  github, gitlab, gitea. `asMap` serialises the configured ones into an
  insertion-ordered `LinkedHashMap`. `setAll` and the three setters replace
  fields. Java `null` is `None`. The getters are plain reads of the public
  fields `github`, `gitlab` and `gitea`.
- **Releasers** (`releasers.dfy`): `findReleaser` returns a GitHub releaser
  builder when GitHub is configured. Otherwise it throws
  `IllegalArgumentException("No suitable git releaser has been configured")`.
  The GitLab and Gitea branches are commented out in the code, so those
  configurations are rejected. A thrown exception is a `Failure` value.
- **Twitter** (`twitter.dfy`, module `TwitterSdk`): the Twitter announcer's
  SDK wrapper. Its constructor checks the logger and four credentials, sets
  OAuth credentials on the shared twitter4j client and fixes `dryRun` in a
  final field (a Dafny `const`). The shared client refuses a second consumer
  pair, so only the first construction in a process succeeds. `updateStatus` goes through `wrap`. `wrap`
  runs the remote call only when `dryRun` is false and turns a
  `twitter4j.TwitterException` into the SDK's `TwitterException`. The
  twitter4j client is a `StatusClient` sink: the credentials it was given,
  every update it was asked for (`attempts`), the ones it posted (`posted`)
  and an injected `failure` that makes each remote call throw.

Three helper modules support these. `linked_map.dfy` models
`java.util.LinkedHashMap` as a sequence of entries, with `put` semantics:
a new key is appended, an existing key keeps its place. `wrappers.dfy` holds
Option/Result/Outcome in place of nullable references and exceptions, and
`util.dfy` holds the opaque `Logger`.

Hosting-backend selection is by precedence in `getGitService`, while
`findReleaser` accepts only GitHub; the model keeps both rules as written.

## Model

| member | source | states |
|---|---|---|
| `Model.Release.constructor` | core/jreleaser-model/src/main/java/org/jreleaser/model/Release.java:27-30 | A new release has no backend configured |
| `Model.Release.SetAll` | core/jreleaser-model/src/main/java/org/jreleaser/model/Release.java:32-36 | All three fields become the other release's, so `getGitService` then agrees with the other release's |
| `Model.Release.SetGithub` | core/jreleaser-model/src/main/java/org/jreleaser/model/Release.java:42-44 | Sets github; gitlab and gitea are unchanged, and nothing else may change |
| `Model.Release.SetGitlab` | core/jreleaser-model/src/main/java/org/jreleaser/model/Release.java:50-52 | Sets gitlab; github and gitea are unchanged |
| `Model.Release.SetGitea` | core/jreleaser-model/src/main/java/org/jreleaser/model/Release.java:58-60 | Sets gitea; github and gitlab are unchanged |
| `Model.Release.GetGitService` | core/jreleaser-model/src/main/java/org/jreleaser/model/Release.java:62-66 | github if set, whatever the others hold; else gitlab if set; else gitea. The result is null exactly when nothing is configured. It is always one of the fields as currently held, and no configured backend comes before it in precedence |
| `Model.Release.AsMap` | core/jreleaser-model/src/main/java/org/jreleaser/model/Release.java:69-75 | The three conditional `put`s into an empty LinkedHashMap yield exactly the expected entries: one per configured backend, in order github, gitlab, gitea |
| `Model.Release.EntriesHaveDistinctKeys` | core/jreleaser-model/src/main/java/org/jreleaser/model/Release.java:70-74 | No key of the map occurs twice |
| `Model.Release.EntriesCountConfigured` | core/jreleaser-model/src/main/java/org/jreleaser/model/Release.java:70-74 | The map's size is the number of configured backends, and it is empty exactly when none is |
| `Model.Release.EntriesLookupGithub` | core/jreleaser-model/src/main/java/org/jreleaser/model/Release.java:71 | "github" is present exactly when github is set, and maps to it |
| `Model.Release.EntriesLookupGitlab` | core/jreleaser-model/src/main/java/org/jreleaser/model/Release.java:72 | "gitlab" is present exactly when gitlab is set, and maps to it |
| `Model.Release.EntriesLookupGitea` | core/jreleaser-model/src/main/java/org/jreleaser/model/Release.java:73 | "gitea" is present exactly when gitea is set, and maps to it |
| `Model.Release.EntriesKeyedByKind` | core/jreleaser-model/src/main/java/org/jreleaser/model/Release.java:71-73 | Each entry's key names its backend's kind, and its value is that backend's current configuration |
| `Model.Release.EntriesInKeyOrder` | core/jreleaser-model/src/main/java/org/jreleaser/model/Release.java:70-74 | Keys iterate in the order github, gitlab, gitea |
| `LinkedMap.Put` | core/jreleaser-model/src/main/java/org/jreleaser/model/Release.java:70-73 | LinkedHashMap `put`: a new key is appended at the end; an existing key keeps its position. The key then maps to the new value, every other key's lookup is unchanged, and distinct keys stay distinct |
| `Releasers.FindReleaser` | core/jreleaser-releaser/src/main/java/org/jreleaser/releaser/Releasers.java:30-41 | Succeeds exactly when github is configured, and then returns the GitHub builder for the given logger. Otherwise it fails with IllegalArgumentException "No suitable git releaser has been configured". When it succeeds, `getGitService` selects that same github configuration |
| `Releasers.OnlyGithubIsAccepted` | core/jreleaser-releaser/src/main/java/org/jreleaser/releaser/Releasers.java:34-40 | With github null and gitlab or gitea set, `findReleaser` still throws, although `getGitService` selects a non-GitHub backend |
| `Releasers.IgnoresGitlabAndGitea` | core/jreleaser-releaser/src/main/java/org/jreleaser/releaser/Releasers.java:31-33 | Two releases that agree on whether github is set get the same result, whatever gitlab and gitea hold |
| `TwitterSdk.Blank` | sdks/twitter-java-sdk/src/main/java/org/jreleaser/sdk/twitter/Twitter.java:39-42 | `requireNonBlank`'s test on a nullable string: null is blank, and so is a string that is empty or all whitespace |
| `TwitterSdk.IdeographicSpaceIsBlank` | sdks/twitter-java-sdk/src/main/java/org/jreleaser/sdk/twitter/Twitter.java:39 | A consumer key made only of U+3000 is rejected with "'consumerKey' must not be blank", as `Character.isWhitespace` counts it as whitespace |
| `TwitterSdk.IsBlank` | sdks/twitter-java-sdk/src/main/java/org/jreleaser/sdk/twitter/Twitter.java:39-42 | A string is blank exactly when every character is whitespace, the empty string included |
| `TwitterSdk.CheckArguments` | sdks/twitter-java-sdk/src/main/java/org/jreleaser/sdk/twitter/Twitter.java:38-42 | Passes exactly when the logger is non-null and all four credentials are non-blank. A null logger, and only that, gives the NullPointerException "'logger' must not be blank". Otherwise the IllegalArgumentException names the first blank credential in source order |
| `TwitterSdk.StatusClient.SetOAuthConsumer` | sdks/twitter-java-sdk/src/main/java/org/jreleaser/sdk/twitter/Twitter.java:47 | twitter4j's `setOAuthConsumer` is accepted exactly when the client holds no consumer pair yet, and the client then holds the given key and secret. Otherwise it reports the IllegalStateException and keeps the old pair; nothing else changes |
| `TwitterSdk.StatusClient.SetOAuthAccessToken` | sdks/twitter-java-sdk/src/main/java/org/jreleaser/sdk/twitter/Twitter.java:48 | The client now holds the given access token and secret, and nothing else changes |
| `TwitterSdk.StatusClient.UpdateStatus` | sdks/twitter-java-sdk/src/main/java/org/jreleaser/sdk/twitter/Twitter.java:54 | The twitter4j call: always recorded as attempted, posted unless the injected failure is thrown |
| `TwitterSdk.Twitter.constructor` | sdks/twitter-java-sdk/src/main/java/org/jreleaser/sdk/twitter/Twitter.java:38-46 | Can be reached only with a non-null logger and four non-blank credentials. Fixes the final logger, client and dryRun |
| `TwitterSdk.Twitter.Create` | sdks/twitter-java-sdk/src/main/java/org/jreleaser/sdk/twitter/Twitter.java:36-51 | Fails exactly when an argument check fails or the shared client already holds a consumer pair. A failed check gives that check's exception; a held pair gives IllegalStateException "consumer key/secret pair already set."; either way the client is untouched. Otherwise it returns a fresh wrapper with the given dryRun, logger and client, and the client holds both credential pairs. Nothing is attempted or posted |
| `TwitterSdk.Twitter.UpdateStatus` | sdks/twitter-java-sdk/src/main/java/org/jreleaser/sdk/twitter/Twitter.java:53-55 | In dry run: returns normally and the client is unchanged (nothing attempted or posted). Otherwise: exactly one attempt with the same status. It is posted when the client succeeds, and a client failure surfaces as TwitterException "Twitter operation failed" carrying the cause |
| `TwitterSdk.Twitter.Wrap` | sdks/twitter-java-sdk/src/main/java/org/jreleaser/sdk/twitter/Twitter.java:58-64 | Runs the operation only when dryRun is false, and never swallows a client failure: it becomes TwitterException "Twitter operation failed" with that cause |
| `TwitterSdk.DryRunTwice` | sdks/twitter-java-sdk/src/main/java/org/jreleaser/sdk/twitter/Twitter.java:45-63 | Two dry-run updates both return normally even against a failing client, and the client records no attempt and no post, shown from the contracts alone |
| `TwitterSdk.SecondConstructionFails` | sdks/twitter-java-sdk/src/main/java/org/jreleaser/sdk/twitter/Twitter.java:46-47 | Because every wrapper shares one client, a second construction in the same process fails with IllegalStateException even with valid credentials, while the first succeeds |

## Left out

- Logging: the constructor's `logger.info` line and every logger's output. They have no effect on the modelled state.
- twitter4j internals: `TwitterFactory.getSingleton` becomes a `StatusClient` passed to `Create`, and `AccessToken` becomes a token/secret pair. The client refuses a second consumer pair, as twitter4j does. A pair preset by twitter4j's own configuration is modelled only as a client that already holds one. The network and the tweet itself are not modelled.
- TwitterSdk.StatusClient.UpdateStatus: a failed call posts nothing. A real failure after the server accepted the tweet is not modelled.
- Strings are sequences of Unicode scalar values, not UTF-16 code units. The whitespace set is `Character.isWhitespace`'s, which accepts only characters of the Basic Multilingual Plane, so this difference does not change which credentials count as blank.
- The source of `StringUtils.requireNonBlank`/`isBlank` is outside this model. `IsBlank` and `Blank` assume they reject null, empty or all-whitespace strings with IllegalArgumentException and the given message.
- Model.Release.SetAll: takes a non-null release, so the NullPointerException that `setAll(null)` throws is not modelled; no caller in the modelled code passes null.
- `JReleaserModel` is not part of this model: `Releasers.FindReleaser` takes `model.getRelease()` directly.
- The contents of `Github`, `Gitlab`, `Gitea` and their own `asMap()` output are opaque. Each map entry holds the configuration itself in place of its nested map.
- `GithubReleaser.builder` internals: the builder is an opaque value carrying the logger.
- `apps/jreleaser/src/main/java/org/jreleaser/cli/Announce.java` (CLI plumbing that forwards to `Announcers`, which is outside this model) and `MacportsToolProcessorFactory` (service registration): they have no logic of their own.
- Concurrency, timeouts, cancellation and outcome aggregation: `Release`, `Releasers` and `Twitter` implement none of them.
