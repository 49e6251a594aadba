// The GitWatcher and GitCommit resources as values. The heap form of the same
// records, with the pointers, slices and maps they hold, is in DeepCopy.dfy.
module Types {
  datatype Option<+T> = None | Some(value: T)

  // A Go (value, error) pair: an error carries its message.
  datatype Result<+T> = Ok(value: T) | Err(message: string)

  // Namespace and name of a resource.
  datatype Key = Key(ns: string, name: string)

  datatype Condition = Condition(
    kind: string, status: string, lastUpdateTime: string,
    lastTransitionTime: string, reason: string, message: string)

  datatype WatcherSpec = WatcherSpec(
    receiverURL: string, repositoryURL: string, credentialSecret: string,
    githubWebhookToken: string, provider: string, push: bool, pr: bool,
    branch: string, tag: bool, tagInclude: string, tagExclude: string,
    labels: map<string, string>, enabled: bool, githubDeployment: bool)

  datatype WatcherStatus = WatcherStatus(
    conditions: seq<Condition>, token: string, hookID: string, firstCommit: string)

  // The resource version is the position of the object in its own history.
  datatype Watcher = Watcher(
    key: Key, uid: string, version: nat, spec: WatcherSpec, status: WatcherStatus)

  datatype OwnerRef = OwnerRef(name: string, uid: string, controller: bool)

  datatype CommitSpec = CommitSpec(
    action: string, payload: string, gitWatcherName: string, commit: string,
    branch: string, tag: string, pr: string, merged: bool, closed: bool,
    sourceLink: string, repositoryURL: string, title: string, message: string,
    author: string, authorEmail: string, authorAvatar: string)

  datatype GithubStatus = GithubStatus(
    deploymentID: nat, deploymentState: string, environmentURL: string, logURL: string)

  datatype CommitStatus = CommitStatus(
    conditions: seq<Condition>, statusURL: string, appliedStatus: string,
    buildStatus: string, github: Option<GithubStatus>)

  datatype GitCommit = GitCommit(
    key: Key, labels: map<string, string>, owners: seq<OwnerRef>,
    spec: CommitSpec, status: CommitStatus)

  const EmptyWatcherStatus := WatcherStatus([], "", "", "")
  const EmptyCommitSpec :=
    CommitSpec("", "", "", "", "", "", "", false, false, "", "", "", "", "", "", "")
  const EmptyCommitStatus := CommitStatus([], "", "", "", None)

  // What the code takes from foreign packages: the path url.Parse finds (None
  // when it fails), the hex digests, regexp.MatchString (None when the pattern
  // does not compile) and the RIO_WEBHOOK_URL environment variable.
  datatype Config = Config(
    parsePath: string -> Option<string>,
    md5Hex: string -> string,
    sha256Hex: string -> string,
    regexp: (string, string) -> Option<bool>,
    webhookURL: string)
}
