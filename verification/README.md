# GitWatcher controller: a verified model

The repository is a Kubernetes controller. It registers webhooks at GitHub for
GitWatcher resources or polls their branches, turns pushes, tags and pull requests
into GitCommit resources and GitHub deployments, and reports the state of those
deployments back. This project models that behaviour in Dafny and proves what holds
of it in every run.

Run `dafny verify dfyconfig.toml`.

## How the model is laid out

* **Values.** `Types`, `Text`, `Format` and `Endpoint` are the resources, the string
  functions of the packages used, the parser of `git ls-remote` output, and the
  address a hook is registered under and how a delivery to it is read.
* **The reconcile protocol.** `Reconcile` holds the branches of `onChange` and the
  two providers as functions of the object held and the answers received. `Protocol`
  runs them as a state machine: an API server with versions and compare-and-swap
  Updates, a cache that holds any earlier version, any number of overlapping
  reconciles that stop between their outside calls, GitHub's hooks, timer ticks,
  spec edits, conflicts, failed calls and crashes. A disabled action changes nothing,
  so every sequence of actions is a run. `ReconcileLaws` says what the branches decide,
  with the conditions written out. `ProtocolInvariants`, `HookConservation`,
  `HookContents`, `Versions`, `ReconcileProgress` and `Convergence` prove the parts;
  `ReconcileTheorems` states the results.
* **The whole system.** `Deliveries` is one webhook delivery and one status report;
  `System` interleaves deliveries (stopped between the deployment and the create of
  the GitCommit), reports and reconciles over one store of GitCommits.
  `SystemInvariants` and `SystemTheorems` state what holds of it, `DeliveryLaws` which
  deliveries get in and what they and the reports say, `PollingRuns` what reconciles
  leave in the store, and `CommitTheorems` which GitCommits and first commits those are.
* **The code's own form.** `Servers`, `Providers` and `Controller` are the objects and
  methods of the source, with working copies set field by field, loops and early
  returns. Each method is proved to do what a run of `System` does. `Informers` is the
  shared informer factory as a class over its two maps, `InformerProtocol` all
  interleavings of its critical sections. `DeepCopy` and `StatusHandler` are the
  generated deep copies and status handler on a heap of objects, arrays and maps.

## What the proofs found

The code is modelled as it is; the lemmas that show each point are named.

* A tick on a cache that lags behind a registration enqueues the watcher again; the
  reconcile reads the unregistered version, creates a second hook and cannot store it
  (`LaggingCacheLosesHook`, with the run from the start in `LaggingCacheFromStart`). The
  conservation law counts it. Two reconciles of one version under way at once do the same
  (`OverlapLosesHook`); the work queue rules that out within one process.
* A failed `createHook` stores a new token each time, so Updates by failing reconciles
  are unbounded; error-free ones are at most two while GitHub's successful answers carry
  an id, and unbounded when they do not (`AtMostTwoCleanUpdates`, `OtherUpdatesUnbounded`).
* A first commit that could not be fetched after the hook was stored is not fetched
  again by the GitHub provider (`RegisteredReconcileDoesNothing`).
* Status calls use the deployment's own environment if and only if the deployment is
  a production one or the pull request event carried its top-level number
  (`StatusCallsAgree`; `UnnumberedDisagrees` is a run of five steps in which a staging
  deployment is reported as production). The `pull/N/head` reference is taken from
  another field.
* Each polled head keeps its own GitCommit exactly while no name is used for two heads
  (`OnePerHead`). Distinct short hashes ensure that for watcher names of up to 57
  characters (`OnePerHeadByHash`) but not for longer ones, because the name is cut before
  the hash (`LongNamesCollide`).
* Deliveries are led back to their watchers for all watchers exactly when the base URL
  has no query and no fragment (`RoundTripExactly`); otherwise for one watcher at most
  (`OneAtMost`). Depending on the base they are ignored (`QueryInBaseLosesReceiver`) or
  reach another watcher (`QueryInBaseLeadsElsewhere`).
* A GitCommit whose create is reported failed may exist: it is one more than the answers
  200 account for (`DeliveriesConserved`, `OnlySuccessStores`).
* A condition that the status handler adds after a handler that changed nothing is
  not stored (`NewConditionIsLost`).
* `kv.Split` trims white space on both sides of the separator; the model does too.
* Push events are handled whether or not the watcher asks for pushes, and event types
  outside the switch create a GitCommit (`ReadyCharacterised`).

## Assumptions

* GitHub gives new hooks and deployments ids that it has not used; an id may be absent
  from an answer, and a call may take effect although it is reported failed.
* Each worker's reconcile and each delivery is a thread of its own in the model, whatever
  the work queue would keep apart, so what is proved holds for several processes too.
* Watchers are not deleted, and users change specs only. GitCommits are changed only by
  the code and, in the status fields other than the deployment id, by whoever runs the
  commit (the `Seen` value of a report is arbitrary).
* Create and Update store status together with the rest of the object.
* Apply without deletion creates the GitCommit or overwrites the fields that
  `ApplyCommit` names. A GitCommit create picks a name that may be taken, may
  fail, and may take effect although it is reported failed.
* `url.Parse`'s path, the hex digests, `regexp.MatchString`, the environment variable
  and the tokens are parameters. Regular expressions are any predicate with a possible
  error.
* Tokens and clocks are arbitrary; nothing proved needs tokens to differ.

## Model

| member | source | states |
|---|---|---|
| ReconcileTheorems.HooksConserved | pkg/provider/github/github.go:83-174 | in every run, with stale caches and overlapping reconciles, the hooks GitHub reported created for a watcher are as many as: one if a hook id is stored, plus reconciles holding one, plus those lost with a failed Update or a crash; so at most one when none is held or lost |
| ReconcileTheorems.TokensAgree | pkg/provider/github/github.go:135-174 | in every run a stored hook id names a hook GitHub has, created for this watcher with the stored token as its secret, and with the address, events and repository that a stored version of it asks for; for valid names and an address without query or fragment in its base a delivery there is led back to the watcher |
| ReconcileTheorems.HooksAreMade | pkg/provider/github/github.go:463-472 | in every run every hook at GitHub, stored or lost, was made for a stored version of its watcher: its address is the environment's base when that is set and else that version's receiver URL, followed by the hook parameter, its events are push, pull_request and create exactly by that version's flags, and owner and repository are those of its URL |
| ReconcileTheorems.ErrorsAreSaid | pkg/controllers/webhook/controller.go:68-75 | in every run each version written after an error says so, False and with a message, in its Registered condition and keeps the others; every other version has exactly the conditions of the one before |
| ReconcileTheorems.StoredStatusStays | pkg/controllers/webhook/controller.go:61-84 | once stored, a hook id keeps its value and token and a first commit keeps its value, whichever provider wrote it and whatever happens later |
| ReconcileTheorems.AtMostTwoCleanUpdates | pkg/controllers/webhook/controller.go:66-79 | while GitHub's answers carry ids, each error-free Update leaves the watcher lacking strictly less of hook id and first commit, so there are at most two in any run |
| ReconcileTheorems.OtherUpdatesUnbounded | pkg/provider/github/github.go:140-157 | for every n there is a run with n Updates by failing reconciles, n + 1 different tokens and no hook at GitHub, and one with n error-free Updates when answers have no id |
| ReconcileTheorems.Converges | pkg/controllers/webhook/controller.go:61-84 | from any reachable state one round with a usable secret, a created hook and an accepted Update stores the hook's id, its token, and the branch's head as first commit when there was none and GitHub gave one; they stay stored in every continuation, and ticks on a caught-up cache no longer enqueue the watcher |
| ReconcileTheorems.ConvergesInterleaved | pkg/controllers/webhook/controller.go:61-84 | the same with any other actions between those of the round, as long as they add no version of the watcher and leave its reconcile and its place in the queue alone |
| ReconcileTheorems.StaysRegistered | pkg/controllers/webhook/controller.go:154-167 | a registered watcher keeps its hook id, which keeps naming its hook, and is not enqueued by ticks once the cache has that version |
| ReconcileTheorems.RegisteredReconcileDoesNothing | pkg/provider/github/github.go:83-86 | in any reachable state a reconcile of a registered version by the GitHub provider calls nothing, writes nothing and disturbs no other reconcile, even if the first commit is missing |
| ReconcileTheorems.LaggingCacheLosesHook | pkg/controllers/webhook/controller.go:154-167 | from any reachable state, a good round followed by a tick before the cache catches up ends with two hooks at GitHub, the first stored and the second lost |
| ReconcileTheorems.LaggingCacheFromStart | pkg/controllers/webhook/controller.go:154-167 | the run that loses a hook, from the creation of the watcher |
| ReconcileTheorems.OverlapLosesHook | pkg/controllers/webhook/controller.go:75-78 | wherever two reconciles of the same unregistered version are under way, both create a hook, the first is stored and the second is lost |
| ReconcileTheorems.StaleHandlingLoses | pkg/controllers/webhook/controller.go:72-78 | a reconcile of a version that is not the stored one leaves all versions as they are, and the hook it created is lost |
| ReconcileTheorems.RunKeepsInv | pkg/controllers/webhook/controller.go:61-84 | every run from a sound state stays sound, with every hook in one place and every error-free Update making progress |
| ReconcileLaws.ProviderChosen | pkg/provider/github/github.go:62-81 | the GitHub provider is chosen exactly when there is a token name or a hook id, the secret is not missing, and the provider is "github" in any case or the URL starts with "https://github.com"; polling exactly when GitHub's is not and the branch is not empty |
| ReconcileLaws.SecretNamed | pkg/provider/github/github.go:441-450 | the secret is the one the spec names, or "githubtoken" for a watcher with a hook id only, or none |
| ReconcileLaws.HookRequested | pkg/provider/github/github.go:83-174 | a reconcile creates a hook exactly for a watcher of the GitHub provider without one, when its secret is found, its URL parses and GitHub does not refuse; with the new token, and the address, events, owner and repository of the watcher |
| ReconcileLaws.AddressOf | pkg/provider/github/github.go:463-472 | the address is the environment's base, or the watcher's when that is not set, with the hook parameter and the watcher's name behind it |
| ReconcileLaws.EventsAskFor | pkg/provider/github/github.go:176-190 | a hook asks for push, pull_request and create exactly by the flags, and for nothing else |
| ReconcileLaws.OwnerAndRepoParsed | pkg/provider/github/github.go:452-461 | a path of a slash-free owner and repository, with or without ".git" behind it, gives these two, in this order |
| ReconcileLaws.FirstCommitFetched | pkg/provider/github/github.go:101-133 | the GitHub provider goes on to apply the answered SHA exactly when there is no first commit, a branch, a URL that parses and a SHA |
| ReconcileLaws.CommitRecorded | pkg/provider/polling/polling.go:67-75 | after an apply GitHub's provider records the commit in any case, polling only without an error and without a first commit; nothing else in the object changes |
| ReconcileLaws.PollFinds | pkg/provider/polling/polling.go:42-67 | a poll goes on to apply a commit exactly when polling is chosen, the credentials are found or missing, and the commit is the first word of git's first line |
| ReconcileLaws.NothingWanted | pkg/controllers/webhook/controller.go:63-66 | a watcher that no provider supports is left alone |
| ReconcileLaws.DesiredIsAppliedFor | pkg/provider/polling/polling.go:84-104 | the applied GitCommit has the watcher's namespace, labels, branch, URL and UID, the commit, the name made of both, and nothing else |
| ReconcileLaws.MarkedFields | vendor/github.com/rancher/wrangler/pkg/condition/condition.go:16-29 | what setting a condition leaves in each of its fields; its time changes exactly when status or message do |
| ReconcileLaws.ErrorIsSaid | vendor/github.com/rancher/wrangler/pkg/condition/condition.go:16-29 | after an error some condition of the kind says it, and conditions of other kinds stay |
| ProtocolInvariants.StepExtends | pkg/controllers/webhook/controller.go:75 | histories, hooks and losses only grow and the cache only moves forward, in every step |
| ProtocolInvariants.StartOK | pkg/provider/github/github.go:83-99 | Create up to its first effect changes only what was empty in the status, and a hook id in the working copy names the hook just created with the copy's token |
| ProtocolInvariants.WrittenObject | pkg/controllers/webhook/controller.go:66-75 | what onChange writes differs from what it read in the status only: the Registered condition exactly on an error, hook id, token and first commit only where they were missing |
| ProtocolInvariants.StepKeepsStatuses | pkg/controllers/webhook/controller.go:72-79 | every step keeps stored hook ids naming their hooks and stored fields write-once, because an Update from a stale read loses the version check |
| ProtocolInvariants.StepKeepsFlights | pkg/provider/github/github.go:83-133 | every step keeps each reconcile's working copy a refinement of a version that was stored |
| Versions.VersionAdded | pkg/controllers/webhook/controller.go:66-75 | a step adds at most one version to a history, at its end: the first one, the stored one with another spec, or what onChange made of the stored one |
| HookContents.StepKeepsMade | pkg/provider/github/github.go:135-174 | every step keeps each hook made for a stored version of its watcher |
| HookConservation.StepKeepsPlaces | pkg/provider/github/github.go:135-174 | after every step each reported hook is stored, held by one reconcile, or lost, and in exactly one of these places |
| HookConservation.HookStored | pkg/controllers/webhook/controller.go:75-79 | an accepted Update moves the reconcile's hook into the store and no other hook anywhere |
| HookConservation.EndKeepsPlaces | pkg/controllers/webhook/controller.go:76-78 | a reconcile that ends without its Update loses the hook it holds and no other |
| HookConservation.HooksPartition | pkg/provider/github/github.go:135-174 | the reported hooks of a watcher are the disjoint union of the stored, the held and the lost ones |
| ReconcileProgress.CleanReturnProgress | pkg/provider/polling/polling.go:62-77 | an error-free Create changes nothing or fills in what was missing; for polling this needs the commit to be non-empty |
| ReconcileProgress.StepKeepsProgress | pkg/controllers/webhook/controller.go:66-79 | in every step, every error-free Update lacks less than the version before it |
| ReconcileProgress.CleanWritesCounted | pkg/controllers/webhook/controller.go:66-79 | in a write-once history the error-free Updates and what the last version lacks add up to at most two |
| ReconcileProgress.HandlingRun | pkg/controllers/webhook/controller.go:61-84 | the steps of one reconcile run in a row compose into its start, its settled result and its write |
| Convergence.RoundBegins | pkg/controllers/webhook/controller.go:154-167 | a watcher without hook id is enqueued by the tick after the cache catches up, and its reconcile starts from the stored version |
| Convergence.RoundRegisters | pkg/provider/github/github.go:62-99 | one good round adds one version, with the id of the hook GitHub created, its token, and the first commit if one was fetched, applied or not, and leaves other reconciles and watchers alone |
| Convergence.InterleavedRegisters | pkg/controllers/webhook/controller.go:61-84 | a round with gaps adds one such version, whatever undisturbing actions fill the gaps |
| Convergence.RegisteredIsQuiet | pkg/provider/github/github.go:84-86 | a reconcile of a version with a hook id ends with the state it found |
| Convergence.StuckRun | pkg/provider/github/github.go:140-157 | n rounds in which GitHub refuses, or answers without an id, store n versions, the i-th with the token of the i-th round, and no hook id |
| Convergence.StuckTokens | pkg/provider/github/github.go:140-141 | no two versions of such a history have the same token |
| SystemTheorems.EveryCommitHasItsWatcher | pkg/provider/github/github.go:328-334 | in every run each GitCommit, polled or delivered, has the namespace, watcher name, owner name and UID of one watcher, and the cache lookup of updateGithubStatus finds that owner |
| SystemTheorems.StatusCallsAgree | pkg/controllers/webhook/controller.go:112-138 | every status call is about a deployment GitHub has; it uses that deployment's environment, and auto-inactive marks exactly production ones, if and only if the deployment is a production one or its event carried a number |
| SystemTheorems.UnnumberedDisagrees | pkg/controllers/webhook/controller.go:112-119 | for every watcher with pull requests and deployments there is a run, with an opened event without a number, in which its staging deployment is reported as production with auto-inactive |
| SystemTheorems.DeliveriesConserved | pkg/provider/github/github.go:205-339 | in every run the GitCommits from deliveries are as many as the 200 answers plus the creates that took effect although reported failed, no two GitCommits share a deployment, and reported deployments are those on GitCommits, those under way and those whose final create did not take effect |
| SystemTheorems.OnlySuccessStores | pkg/provider/github/github.go:335-339 | a delivery or report step changes the GitCommits exactly when it is answered 200 or its create takes effect and is reported failed, adding one under a free name |
| SystemTheorems.DeliveryDeploysOnce | pkg/provider/github/github.go:341-417 | a delivery makes at most one deployment, the one its event calls for at the watcher stored on arrival |
| SystemTheorems.DeploymentsAddUp | pkg/provider/github/github.go:357-366 | reported deployments are counted by GitCommits carrying one, deliveries under way and failed creates |
| DeliveryLaws.OnlyAuthenticGetIn | pkg/provider/github/github.go:205-236 | on any state a delivery goes on to its GitCommit exactly when the receiver it names is stored and enabled, the payload is readable and, if there is a token, signed with it, the client's secret is found, and the event is admitted with its deployment, if it calls for one, made; it makes a deployment exactly when besides the event calls for one; otherwise neither grows |
| DeliveryLaws.OnlySignedGetIn | pkg/provider/github/github.go:205-236 | in every run, of the requests that name a registered watcher exactly those get in that are signed with the secret of its hook at GitHub, if it has one, and that the enabled watcher wants |
| DeliveryLaws.Answered | pkg/provider/github/github.go:205-339 | a delivery that does not go on is answered 422 when its watcher is disabled or does not want the event, 500 when it is not authentic or its deployment fails, and aborts on a pull request event without an action or without the number it needs |
| DeliveryLaws.OthersChangeNothing | pkg/provider/github/github.go:205-236 | a whole delivery changes GitCommits or deployments only if it is authentic for a stored watcher that wants its event |
| DeliveryLaws.PendingTells | pkg/provider/github/github.go:238-334 | what a delivery that got in creates is the GitCommit for its event, every field of the spec in its place, with the watcher's labels and owner and the id of the deployment just made |
| DeliveryLaws.ReadyTells | pkg/provider/github/github.go:238-334 | the fields of the GitCommit for each kind of event, one by one |
| DeliveryLaws.RecordStores | pkg/provider/github/github.go:335-339 | the create stores that GitCommit as it is, under its prefix and the server's suffix, exactly when that name is free and the create takes effect, and 200 is answered exactly when that is reported |
| DeliveryLaws.ReportTells | pkg/controllers/webhook/controller.go:86-152 | a report adds a status call exactly when the GitCommit has a deployment, its watcher is cached, the client can be made, the URL parses and there is a state; the state is the deployment's when there is one and else the build's, owner, repository, deployment and both URLs are in their places |
| CommitTheorems.AppliedAreAsStored | pkg/provider/polling/polling.go:84-104 | in every run each applied GitCommit is the one for its commit at some stored version of its watcher |
| CommitTheorems.PolledHeadIsHeld | pkg/provider/polling/polling.go:42-78 | from every reachable state a reconcile of the cached version of a watcher that polling serves leaves the GitCommit of the head git reports in the store, with credentials or without |
| CommitTheorems.MissingSecretIsPolled | pkg/provider/github/github.go:67-70 | so does one of a watcher with a branch whose secret is missing, even with a token name and a URL at GitHub |
| CommitTheorems.RegistrationApplies | pkg/provider/github/github.go:101-133 | from every reachable state a round that registers a watcher without first commit stores the SHA GitHub gives for its branch, even after a failed apply, and has the GitCommit of it in the store when the apply took effect; otherwise no GitCommit changes |
| CommitTheorems.FirstCommitsWereApplied | pkg/provider/polling/polling.go:67-75 | in every run each first commit of each version was applied for its watcher and has its name in the store, or was recorded by GitHub's provider after a failed apply |
| SystemInvariants.StepKeepsInv | pkg/provider/github/github.go:205-339 | every step of the system keeps provenance, agreement, the one place of each deployment, and the count of 200 answers |
| SystemInvariants.AppliedOwned | pkg/provider/polling/polling.go:84-104 | a GitCommit applied by a reconcile has the namespace, name and UID of the watcher that reconcile read |
| SystemInvariants.UpsertKeeps | pkg/provider/polling/polling.go:105-107 | an apply changes no other GitCommit and no status or pull request number of the one it meets |
| SystemInvariants.HookCommit | pkg/provider/github/github.go:205-236 | a delivery's GitCommit belongs to the stored watcher it was addressed to, and has a pull request number exactly when the event carried one |
| System.RunProjects | pkg/controllers/webhook/controller.go:47-48 | deliveries and reports do not interfere with the reconcile protocol: a run of the system is a run of it |
| Deliveries.DeploymentCharacterised | pkg/provider/github/github.go:263-326 | a deployment is requested exactly for a push with a head commit to the watched branch, or an accepted opened or synchronize pull request with its data, when deployments are enabled and owner and repository parse; and which one |
| Deliveries.ReadyCharacterised | pkg/provider/github/github.go:238-339 | a GitCommit is made ready exactly for admitted events whose deployment, if one is wanted, can be asked for |
| Deliveries.ReadyCommit | pkg/provider/github/github.go:419-427 | whatever the event, the GitCommit names the watcher, has it as only owner, and has a number exactly when the event does |
| PollingRuns.PolledIsLatest | pkg/provider/polling/polling.go:42-78 | in every run, with spec edits, several watchers, both providers and deliveries, a key is stored exactly when something was applied under it or it came from a delivery; what an apply names is there as the last apply under the key had it, and there is nothing else unless it came from a delivery |
| PollingRuns.StoreIsFold | pkg/provider/polling/polling.go:84-108 | in every run the GitCommits not from deliveries are the fold of upserts by namespace and name over all that reconciles applied |
| PollingRuns.UpsertNames | pkg/provider/polling/polling.go:105-107 | on every store an upsert leaves what it names, keeps every field it does not, changes nothing exactly when that was there, and repeated changes nothing more |
| PollingRuns.RepollChangesNothing | pkg/provider/polling/polling.go:67-75 | at any moment of any run an apply changes nothing exactly when what it names is stored, which where something was applied before means that it repeats the last apply under its name |
| PollingRuns.OnePerHead | pkg/provider/polling/polling.go:84-104 | in every run each applied head of each watcher has its own GitCommit if and only if no name was used for two heads, and then each watcher has as many GitCommits from reconciles as distinct heads |
| PollingRuns.OnePerHeadByHash | pkg/provider/polling/polling.go:85 | with watcher names of up to 57 characters and short hashes that are distinct on each watcher's applied heads, every run keeps one GitCommit per head |
| PollingRuns.NamesFollowHashes | vendor/github.com/rancher/wrangler/pkg/name/name.go:52-59 | with watcher names of up to 57 characters two GitCommit names are the same exactly when watcher name and short hash are |
| PollingRuns.LongNamesFollowDigests | vendor/github.com/rancher/wrangler/pkg/name/name.go:54-57 | for longer names exactly when the digests of the uncut names begin alike |
| PollingRuns.CollisionLosesHead | pkg/provider/polling/polling.go:84-108 | for any two heads that share a name there is a run that applies both and keeps one GitCommit |
| PollingRuns.LongNamesCollide | pkg/provider/polling/polling.go:85 | for every watcher name of more than 57 characters there are digests, two heads with distinct short hashes and a run that keeps one GitCommit of the two |
| Format.FirstFieldIsFirstWord | pkg/git/format.go:9-24 | an error exactly when the first line has no word, and otherwise its whole first word, so never empty |
| Format.FirstWordFound | pkg/git/format.go:9-24 | the first word of the first line is what is found, whatever follows it |
| Format.WordIsItself | pkg/git/format.go:14-23 | a line that is one word names that word |
| Endpoint.EndpointRoundTrip | pkg/provider/github/github.go:470-472 | for valid namespaces and names and any base without query or fragment, reading the hook parameter of the address and splitting it gives the watcher back |
| Endpoint.RoundTripExactly | pkg/provider/github/github.go:206-212 | the round trip works for all valid namespaces and names if and only if the base has no query and no fragment |
| Endpoint.OneAtMost | pkg/provider/github/github.go:206-212 | with any other base it works for one watcher at most |
| Endpoint.HookURLInjective | pkg/provider/github/github.go:463-472 | two watchers never share a hook address, whatever their base URLs are |
| Endpoint.QueryInBaseLosesReceiver | pkg/provider/github/github.go:206-209 | a base whose query is one word leaves every delivery without a receiver |
| Endpoint.QueryInBaseLeadsElsewhere | pkg/provider/github/github.go:206-212 | a base whose query has a hook parameter of its own leads every delivery to that parameter's watcher |
| Endpoint.ReceiverIDSplits | pkg/provider/github/github.go:211 | the receiver id splits back into the namespace and name it was made from |
| Text.ItoaRoundTrip | pkg/provider/github/github.go:170 | a hook id is read back from its decimal text |
| Text.ItoaInjective | pkg/provider/github/github.go:170 | two hook ids never have the same text |
| Text.SplitTrims | vendor/github.com/rancher/wrangler/pkg/kv/split.go:5-8 | the split cuts at the first separator and drops the white space around both parts; without a separator the second part is empty |
| Text.CutAt | vendor/github.com/rancher/wrangler/pkg/kv/split.go:5-8 | the split is at the first separator |
| Controller.WebhookHandler.OnChange | pkg/controllers/webhook/controller.go:61-84 | the loop over providers, the condition, the comparison and the Update leave the API server and GitHub where the steps of one reconcile in the protocol do; it returns the version it wrote or else its argument, and an error exactly when Create had one or a needed write was not taken; GitHub's hooks change exactly when the GitHub provider is the one for the watcher, there is no hook id, the secret is found, the URL parses and GitHub does not refuse |
| Controller.WebhookHandler.Finish | pkg/controllers/webhook/controller.go:68-79 | nothing is written when nothing changed; otherwise one version, if the stored one is still the one read; the error is none exactly when Create had none and the write, if needed, was taken |
| Controller.WebhookHandler.Create | pkg/controllers/webhook/controller.go:65-67 | the chosen provider's Create settles as the protocol says, with its hook and its GitCommit |
| Controller.WebhookHandler.Tick | pkg/controllers/webhook/controller.go:154-167 | a tick is the protocol's tick, and nothing when the cache cannot be listed |
| Controller.WebhookHandler.EnqueueUnregistered | pkg/controllers/webhook/controller.go:159-163 | the loop enqueues exactly the cached watchers without a hook id |
| Controller.WebhookHandler.UpdateGithubStatus | pkg/controllers/webhook/controller.go:86-152 | the report makes the one status call that the report step of the system makes, or none: exactly when there is something to report, with the deployment's state or else the build's and every field in its place; without an error it makes none only when there is no state to report |
| Controller.HandlingHooks | pkg/provider/github/github.go:62-174 | a whole reconcile changes GitHub's hooks exactly under the conditions of the GitHub provider, written out |
| Controller.HandlingEffects | pkg/controllers/webhook/controller.go:61-84 | what the four steps of a reconcile in the system change: hooks, versions, and the GitCommits by the one apply |
| Providers.GitHubProvider.Create | pkg/provider/github/github.go:83-99 | with a hook id nothing is done; otherwise client, hook and first commit in turn, stopping at the first error, as the protocol settles |
| Providers.GitHubProvider.CreateHook | pkg/provider/github/github.go:135-174 | the working copy has the new token even on an error, the hook id only when the answer has one, and GitHub's hooks grow as its answer says, by a hook with this token and the address of the environment or else the watcher's own |
| Providers.GitHubProvider.GetFirstCommit | pkg/provider/github/github.go:101-133 | the SHA that GitHub gives is recorded even when the apply failed, and only when there was no first commit, a branch and a URL that parses; its GitCommit is upserted exactly when besides the apply took effect |
| Providers.PollingProvider.Create | pkg/provider/polling/polling.go:42-78 | the first commit is recorded only after a successful apply, and only when there was none |
| Providers.ApplyCommit | pkg/provider/polling/polling.go:84-108 | the GitCommit store after the apply of the commit's GitCommit, as the answer says |
| Providers.GitHubProvider.InitExecution | pkg/provider/github/github.go:419-427 | the fresh GitCommit that every event starts from |
| Providers.GitHubProvider.HandleCreateEvent | pkg/provider/github/github.go:241-261 | tag filters in order, and the tag and author in the GitCommit |
| Providers.GitHubProvider.HandlePushEvent | pkg/provider/github/github.go:263-287 | the branch filter, the commit's fields, and the deployment for the watched branch |
| Providers.GitHubProvider.HandlePullRequestEvent | pkg/provider/github/github.go:288-326 | the action filter, the pull request's fields, the panic on an absent action, and the deployment |
| Providers.GitHubProvider.CreateDeploymentForProduction | pkg/provider/github/github.go:341-367 | one production deployment at the commit when enabled, its id in the GitCommit, or the error answer |
| Providers.GitHubProvider.CreateDeploymentForPullRequest | pkg/provider/github/github.go:369-401 | one staging deployment of the pull request's head for opened and synchronize, its id in the GitCommit, or the error answer or panic |
| Providers.GitHubProvider.CreateDeployment | pkg/provider/github/github.go:403-417 | the deployment id when GitHub reports success, and failure otherwise even if GitHub made one |
| Providers.GitHubProvider.HandleEvent | pkg/provider/github/github.go:238-339 | the owner is added after the event is handled, and the GitCommit is created exactly when no step answered before |
| Providers.GitHubProvider.HandleHook | pkg/provider/github/github.go:205-236 | a delivery run from start to end does what its two steps do in the system, with the same answer; it changes GitCommits or deployments only for a stored, enabled watcher that it is signed for and that wants its event |
| Servers.ApiServer.Update | pkg/controllers/webhook/controller.go:75 | an Update is taken only at the version it carries and then adds one version; otherwise nothing changes |
| InformerProtocol.OneInformerPerType | pkg/generated/informers/externalversions/factory.go:111-121 | under every interleaving each type has one informer, shared with no other type; all callers got that one; it ran at most once, and once exactly if its type is marked started; started types are registered |
| InformerProtocol.NeverReplaced | pkg/generated/informers/externalversions/factory.go:147-166 | an informer is never replaced and a started type stays started |
| InformerProtocol.WaitsForSnapshot | pkg/generated/informers/externalversions/factory.go:124-143 | whatever is registered or started meanwhile, the wait returns exactly when it has an answer for each type registered and started at its snapshot, and those informers had been run |
| InformerProtocol.StepKeeps | pkg/generated/informers/externalversions/factory.go:111-166 | every critical section keeps the invariant and replaces nothing |
| Informers.SharedInformerFactory.constructor | pkg/generated/informers/externalversions/factory.go:92-108 | the factory starts empty, with the resync periods after all options in order |
| Informers.SharedInformerFactory.InformerFor | pkg/generated/informers/externalversions/factory.go:147-166 | the registered informer, or a fresh one with the type's resync period; it is one step of the protocol |
| Informers.SharedInformerFactory.Start | pkg/generated/informers/externalversions/factory.go:111-121 | one step of the protocol |
| Informers.SharedInformerFactory.RunUnstarted | pkg/generated/informers/externalversions/factory.go:115-120 | the loop leaves every registered informer run exactly once and its type marked |
| Informers.SharedInformerFactory.StartedInformers | pkg/generated/informers/externalversions/factory.go:125-136 | the snapshot is the registered and started informers, each run once |
| Informers.SharedInformerFactory.WaitForCacheSync | pkg/generated/informers/externalversions/factory.go:124-143 | one answer for exactly the registered and started types, true when the informer synced |
| DeepCopy.ObjectMeta.DeepCopyInto | vendor/k8s.io/apimachinery/pkg/apis/meta/v1/zz_generated.deepcopy.go:691-742 | the target gets the same metadata, with labels, annotations, owners, finalizers and deletion time of its own |
| DeepCopy.GitWatcher.DeepCopyInto | pkg/apis/gitwatcher.cattle.io/v1/zz_generated_deepcopy.go:147-154 | the target gets the same value, with maps, slices and pointers of its own |
| DeepCopy.GitWatcher.CopySpecInto | pkg/apis/gitwatcher.cattle.io/v1/zz_generated_deepcopy.go:208-218 | the spec goes over with a map of its own |
| DeepCopy.GitWatcher.CopyStatusInto | pkg/apis/gitwatcher.cattle.io/v1/zz_generated_deepcopy.go:231-239 | the status goes over with a slice of its own |
| DeepCopy.GitWatcher.DeepCopy | pkg/apis/gitwatcher.cattle.io/v1/zz_generated_deepcopy.go:157-164 | an equal value in fresh storage, with no two maps sharing any even if the original's do |
| DeepCopy.GitCommitObject.DeepCopyInto | pkg/apis/gitwatcher.cattle.io/v1/zz_generated_deepcopy.go:44-51 | the target gets the same value, with maps, slices and pointers of its own |
| DeepCopy.GitCommitObject.CopyStatusInto | pkg/apis/gitwatcher.cattle.io/v1/zz_generated_deepcopy.go:121-134 | the status goes over with a slice and a GitHub status of its own |
| DeepCopy.GitCommitObject.DeepCopy | pkg/apis/gitwatcher.cattle.io/v1/zz_generated_deepcopy.go:54-61 | an equal value in fresh storage |
| DeepCopy.CopyWatchers | pkg/apis/gitwatcher.cattle.io/v1/zz_generated_deepcopy.go:179-185 | the copied items are equal one by one, fresh and pairwise disjoint, even if the originals share storage |
| DeepCopy.CopyWatcherList | pkg/apis/gitwatcher.cattle.io/v1/zz_generated_deepcopy.go:175-187 | so are those of the list, with an equal header; nil items stay nil |
| DeepCopy.CopyCommits | pkg/apis/gitwatcher.cattle.io/v1/zz_generated_deepcopy.go:76-82 | the same for GitCommits |
| DeepCopy.CopyCommitList | pkg/apis/gitwatcher.cattle.io/v1/zz_generated_deepcopy.go:72-84 | the same for lists of GitCommits |
| DeepCopy.CopyMap | pkg/apis/gitwatcher.cattle.io/v1/zz_generated_deepcopy.go:211-217 | an equal map in fresh storage, nil for nil |
| DeepCopy.CopySlice | pkg/apis/gitwatcher.cattle.io/v1/zz_generated_deepcopy.go:233-237 | an equal slice in fresh storage, nil for nil |
| DeepCopy.EditCopy | pkg/controllers/webhook/controller.go:67-69 | no sequence of in-place changes of the copy, in any of its fields, changes the cached object, and the copy ends as those changes say |
| DeepCopy.EditsAreUpdates | pkg/provider/github/github.go:140-141 | setting token, hook id and first commit in the copy are the updates of the value model |
| StatusHandler.SetErrorIsEdit | pkg/controllers/webhook/controller.go:68-70 | setting the condition in the copy is one change in place, and the copy is then what the value model says onChange writes |
| StatusHandler.SetConditionError | vendor/github.com/rancher/wrangler/pkg/condition/condition.go:16-29 | the condition is changed in place when it is there, and a new slice is made when it is not, leaving the old one |
| StatusHandler.SetErrorInPlace | vendor/github.com/rancher/wrangler/pkg/condition/condition.go:173-197 | the first condition of the kind is changed and no other |
| StatusHandler.SetErrorAppends | vendor/github.com/rancher/wrangler/pkg/condition/condition.go:173-185 | a condition of a new kind is appended |
| StatusHandler.GitWatcherStatusHandler.Sync | pkg/generated/controllers/gitwatcher.cattle.io/v1/gitwatcher.go:275-304 | for every handler, which may change every field in place and return a status that shares its argument's slice or not, the cached object is left as it is, there is one status write exactly when the new status differs, none when the handler fails, and the error is the handler's or else the write's; the result is the answer of a write that was taken, and without a write the copy with the handler's changes and the condition |
| StatusHandler.ConditionSaysOutcome | pkg/generated/controllers/gitwatcher.cattle.io/v1/gitwatcher.go:288-294 | the first condition of the kind on the resulting object says False and the message after an error, and True after a success or a conflict |
| StatusHandler.NewConditionIsLost | pkg/generated/controllers/gitwatcher.cattle.io/v1/gitwatcher.go:288-302 | after a handler that changed nothing there is a write if and only if the condition was there already and changes |
| StatusHandler.UpdateDeepCopyOnChange | pkg/generated/controllers/gitwatcher.cattle.io/v1/gitwatcher.go:120-135 | for every handler, which may change every field in place and return another object, the object passed in is left as it is; the resulting object is written if and only if it is at the same version and differs, and result and error are then the Update's and otherwise the handler's |
| StatusHandler.EqualUpToNil | pkg/generated/controllers/gitwatcher.cattle.io/v1/gitwatcher.go:130-132 | a write happens exactly when the versions agree and the objects differ in more than nil against empty, in any field |
| StatusHandler.OtherVersionNotWritten | pkg/generated/controllers/gitwatcher.cattle.io/v1/gitwatcher.go:130-132 | an object the handler left at another version is not written again |

## Left out

- HTTP serving, routing, log streaming, the command line and leader election: input and output only.
- Running git, key files and credential rewriting (`pkg/git/cmd.go`, `pkg/git/auth.go`): the lines `BranchCommit` reads are any answer.
- go-github, OAuth, payload parsing: events are parsed values; a payload is valid when it can be read and its signature was made with the stored token, or there is no token.
- Responses other than errors (`resp.StatusCode` branches and closing bodies): one failed answer stands for both kinds of failure.
- Deletion of watchers and GitCommits (`DeletionTimestamp`, a nil object): the handlers do nothing then.
- A deployment answer without an id: the code would follow a nil pointer; the model takes the id to be present on success.
- Providers.GitHubProvider.HandleHook: the client's token is not followed to GitHub; only whether the client can be made is.
- DeepCopy.ObjectMeta.DeepCopyInto: initializers, managed fields, grace period, timestamps other than the deletion's, and the pointers inside owner references, which are values here.
- DeepCopy.CopyWatcherList: a list is a struct value whose items are objects, so the allocation of the items as one array is not modelled.
- DeepCopy.CopyCommitList: as for watchers.
- StatusHandler.GitWatcherStatusHandler.Sync: a handler that keeps its argument and changes it after it returned, or that makes two maps of it one and the same.
- Informers.SharedInformerFactory.constructor: `WithTweakListOptions` and the namespace are kept for the listers only and play no part.
- InformerProtocol.WaitsForSnapshot: whether a wait ever ends depends on the informers and the stop channel.
- Text.ItoaRoundTrip: ids are unbounded naturals; GitHub's are positive 64-bit numbers, which `int` holds on 64-bit machines.
- Strings are sequences of characters taken one by one: lengths and cuts are those of ASCII names.
- The GitCommit cache: a report sees any state of the fields others write, but the deployment id and the pull request number as stored.
- Wrangler's apply, work queue and retry delays: the stated upsert and enqueue contracts stand for them.
- Typed clients, listers, fakes, `GetByIndex`, scheme registration, the generating handler and the GitCommit status handler: thin wrappers, or the same code for another type.
