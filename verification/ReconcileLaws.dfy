// What the pieces of a reconcile decide, with the conditions written out.
module ReconcileLaws {
  import opened Types
  import opened Text
  import opened Format
  import opened Endpoint
  import opened Reconcile

  // ---------- Owner and repository ----------

  predicate Unspaced(s: string) {
    forall i :: 0 <= i < |s| ==> !IsSpace(s[i])
  }

  // A path of an owner and a repository, with or without ".git" behind it, names them.
  // Without it the repository must not end that way itself.
  lemma OwnerAndRepoParsed(cfg: Config, url: string, owner: string, repo: string, suffix: string)
    requires '/' !in owner && '/' !in repo && Unspaced(owner) && Unspaced(repo)
    requires suffix == ".git" || (suffix == "" && !(|repo| >= 4 && repo[|repo| - 4..] == ".git"))
    requires cfg.parsePath(url) == Some("/" + owner + "/" + repo + suffix)
    ensures OwnerAndRepo(cfg, url) == Ok((owner, repo))
  {
    var path := "/" + owner + "/" + repo + suffix;
    assert TrimPrefix(path, "/") == owner + "/" + repo + suffix;
    SuffixTrimmed(owner, repo, suffix);
    assert owner + "/" + repo == owner + ['/'] + repo;
    CutAt(owner, '/', repo);
    TrimSpaceIdentity(owner);
    TrimSpaceIdentity(repo);
  }

  lemma SuffixTrimmed(owner: string, repo: string, suffix: string)
    requires '/' !in repo
    requires suffix == ".git" || (suffix == "" && !(|repo| >= 4 && repo[|repo| - 4..] == ".git"))
    ensures TrimSuffix(owner + "/" + repo + suffix, ".git") == owner + "/" + repo
  {
    var s := owner + "/" + repo;
    if suffix == ".git" {
      assert (s + suffix)[|s|..] == ".git" && (s + suffix)[..|s|] == s;
    } else {
      assert s + suffix == s;
      if |repo| >= 4 {
        assert s[|s| - 4..] == repo[|repo| - 4..];
      } else if |s| >= 4 {
        assert s[|s| - 4..][|owner| - (|s| - 4)] == '/';
        NotGit(s[|s| - 4..]);
      }
    }
  }

  lemma NotGit(s: string)
    requires '/' in s
    ensures s != ".git"
  {
    assert '/' !in ".git";
  }

  // It fails exactly when the URL has no path to look at.
  lemma OwnerAndRepoFails(cfg: Config, url: string)
    ensures OwnerAndRepo(cfg, url).Ok? <==> cfg.parsePath(url).Some?
  {
  }

  // ---------- Which provider ----------

  ghost predicate NamesGitHub(provider: string) {
    |provider| == 6 && forall i :: 0 <= i < 6 ==> provider[i] == "github"[i] || provider[i] == "GITHUB"[i]
  }

  // The GitHub provider is the watcher's: it has a token name or an old hook, the secret
  // cache did not say "not found", and the provider or the repository is GitHub's.
  ghost predicate WantsGitHub(o: Watcher, secret: Lookup) {
    && (o.spec.githubWebhookToken != "" || o.status.hookID != "")
    && !secret.Missing?
    && (NamesGitHub(o.spec.provider) || "https://github.com" <= o.spec.repositoryURL)
  }

  ghost predicate WantsPolling(o: Watcher, secret: Lookup) {
    !WantsGitHub(o, secret) && o.spec.branch != ""
  }

  lemma FoldedIsGitHub(s: string)
    ensures EqualFold(s, "github") <==> NamesGitHub(s)
  {
    var lower, upper := "github", "GITHUB";
    assert forall i :: 0 <= i < 6 ==> 'a' <= lower[i] <= 'z' && upper[i] as int + 32 == lower[i] as int;
    forall c: char, i | 0 <= i < 6 ensures Lower(c) == Lower(lower[i]) <==> c == lower[i] || c == upper[i] {
    }
  }

  lemma ProviderChosen(o: Watcher, secret: Lookup)
    ensures ProviderFor(o, secret) == Some(GitHub) <==> WantsGitHub(o, secret)
    ensures ProviderFor(o, secret) == Some(Polling) <==> WantsPolling(o, secret)
  {
    FoldedIsGitHub(o.spec.provider);
  }

  // Which secret the token is taken from.
  lemma SecretNamed(o: Watcher)
    ensures o.spec.githubWebhookToken != "" ==> WebhookSecretName(o) == Ok(o.spec.githubWebhookToken)
    ensures o.spec.githubWebhookToken == "" && o.status.hookID != "" ==> WebhookSecretName(o) == Ok("githubtoken")
    ensures WebhookSecretName(o).Err? <==> o.spec.githubWebhookToken == "" && o.status.hookID == ""
  {
  }

  // ---------- Which hook ----------

  // The events a hook asks for are those of the watcher's flags.
  ghost predicate AsksFor(spec: WatcherSpec, events: seq<string>) {
    && ("push" in events <==> spec.push)
    && ("pull_request" in events <==> spec.pr)
    && ("create" in events <==> spec.tag)
    && (forall e :: e in events ==> e == "push" || e == "pull_request" || e == "create")
    && |events| == (if spec.push then 1 else 0) + (if spec.pr then 1 else 0) + (if spec.tag then 1 else 0)
  }

  // The hook is for the watcher o as it is in this version: its address is the
  // environment's when that is set and else the watcher's own, followed by the hook
  // parameter with the watcher's name.
  ghost predicate MadeFor(cfg: Config, o: Watcher, hook: Hook) {
    && hook.watcher == o.key
    && hook.url == (if cfg.webhookURL != "" then cfg.webhookURL else o.spec.receiverURL) +
                   "/hooks?gitwebhookId=" + o.key.ns + ":" + o.key.name
    && AsksFor(o.spec, hook.events)
    && OwnerAndRepo(cfg, o.spec.repositoryURL) == Ok((hook.owner, hook.repo))
  }

  lemma EventsAskFor(spec: WatcherSpec)
    ensures AsksFor(spec, Events(spec))
  {
    assert "push"[1] != "pull_request"[2];
    assert "push"[0] == 'p' && "pull_request"[0] == 'p' && "create"[0] == 'c' && |"push"| != |"pull_request"|;
  }

  lemma AddressOf(cfg: Config, o: Watcher)
    ensures HookEndpoint(cfg, o) ==
      (if cfg.webhookURL != "" then cfg.webhookURL else o.spec.receiverURL) +
      "/hooks?gitwebhookId=" + o.key.ns + ":" + o.key.name
  {
    var base := if cfg.webhookURL != "" then cfg.webhookURL else o.spec.receiverURL;
    assert "/" + HooksEndpointPrefix == "/hooks?gitwebhookId=";
    assert base + "/" + HooksEndpointPrefix == base + ("/" + HooksEndpointPrefix);
  }

  lemma HookMade(cfg: Config, o: Watcher, token: string, answer: HookAnswer)
    ensures var entry := CreateHook(cfg, o, token, answer).entry;
      && (entry.Some? <==> cfg.parsePath(o.spec.repositoryURL).Some? && !answer.Refused?)
      && (entry.Some? ==>
            && entry.value.0 == answer.id && entry.value.1.secret == token && MadeFor(cfg, o, entry.value.1))
  {
    EventsAskFor(o.spec);
    AddressOf(cfg, o);
  }

  // A hook comes into being exactly for a watcher of the GitHub provider without one,
  // when its secret is found, its repository parses and GitHub does not refuse; it has
  // the new token as its secret.
  lemma HookRequested(cfg: Config, o: Watcher, a: StartAnswers)
    ensures var entry := StartReconcile(cfg, o, a).entry;
      && (entry.Some? <==>
            && WantsGitHub(o, a.supports) && o.status.hookID == "" && a.client.Found?
            && cfg.parsePath(o.spec.repositoryURL).Some? && !a.hook.Refused?)
      && (entry.Some? ==>
            && entry.value.0 == a.hook.id && entry.value.1.secret == a.token
            && MadeFor(cfg, o, entry.value.1))
  {
    ProviderChosen(o, a.supports);
    HookMade(cfg, o, a.token, a.hook);
  }

  // ---------- What polling finds ----------

  // A poll goes on to apply a commit exactly when the watcher is not GitHub's but has a
  // branch, its credentials can be looked up, there or not, and git's first line of
  // output has a word; the commit is that word.
  lemma PollFinds(cfg: Config, o: Watcher, a: StartAnswers, commit: string)
    ensures StartReconcile(cfg, o, a).phase == Fetched(o, None, commit, Polling) <==>
      && WantsPolling(o, a.supports) && !a.credential.Failed? && a.lines.Ok? && |a.lines.value| > 0
      && exists pad, rest :: FirstWordAt(a.lines.value[0], pad, commit, rest)
  {
    ProviderChosen(o, a.supports);
    if a.lines.Ok? {
      FirstFieldIsFirstWord(a.lines.value, "no commit for branch: " + o.spec.branch);
      if |a.lines.value| > 0 {
        forall pad, rest | FirstWordAt(a.lines.value[0], pad, commit, rest)
          ensures FirstField(a.lines.value, "no commit for branch: " + o.spec.branch) == Ok(commit)
        {
          FirstWordFound(a.lines.value, pad, commit, rest, "no commit for branch: " + o.spec.branch);
        }
      }
    }
  }

  // A watcher that neither provider wants is left alone.
  lemma NothingWanted(cfg: Config, o: Watcher, a: StartAnswers)
    requires !WantsGitHub(o, a.supports) && o.spec.branch == ""
    ensures StartReconcile(cfg, o, a) == Start(Returned(o, None, None), None)
  {
    ProviderChosen(o, a.supports);
  }

  // ---------- The first commit ----------

  // The commit that the GitHub provider takes for the first one, if any.
  function FirstCommitOf(cfg: Config, o: Watcher, ref: Result<Option<string>>): Option<string> {
    if o.status.firstCommit == "" && o.spec.branch != "" && cfg.parsePath(o.spec.repositoryURL).Some? && ref.Ok? then
      ref.value
    else None
  }

  lemma FirstCommitFetched(cfg: Config, o: Watcher, hook: Option<nat>, ref: Result<Option<string>>)
    ensures var phase := FetchRef(cfg, o, hook, ref); var sha := FirstCommitOf(cfg, o, ref);
      if sha.Some? then phase == Fetched(o, hook, sha.value, GitHub)
      else phase.Returned? && phase.obj == o && phase.hook == hook
  {
  }

  // What the end of an apply leaves in the working copy: GitHub records the commit in any
  // case, polling only after a successful apply and only the first one.
  lemma CommitRecorded(o: Watcher, hook: Option<nat>, commit: string, source: Provider, a: ApplyAnswer)
    ensures var phase := AfterApply(o, hook, commit, source, a);
      && phase.Returned? && phase.hook == hook && phase.err == a.err
      && phase.obj == o.(status := o.status.(firstCommit := phase.obj.status.firstCommit))
      && (source == GitHub ==> phase.obj.status.firstCommit == commit)
      && (source == Polling ==>
            phase.obj.status.firstCommit ==
            if a.err.None? && o.status.firstCommit == "" then commit else o.status.firstCommit)
  {
  }

  // ---------- The GitCommit that is applied ----------

  // c is what an apply for o asks for: its name is made of the watcher's and the commit's
  // short hash, and cut and given a short digest when that is too long; it has the
  // watcher's labels, branch and repository, and is owned by it.
  ghost predicate AppliedFor(cfg: Config, o: Watcher, commit: string, c: GitCommit) {
    && c.key.ns == o.key.ns
    && (|cfg.md5Hex(commit)| >= 5 ==>
          var name := o.key.name + "-" + cfg.md5Hex(commit)[..5];
          && (|o.key.name| <= 57 ==> c.key.name == name)
          && (|o.key.name| > 57 && |cfg.sha256Hex(name)| >= 5 ==>
                c.key.name == name[..57] + "-" + cfg.sha256Hex(name)[..5]))
    && c.labels == o.spec.labels
    && c.owners == [OwnerRef(o.key.name, o.uid, true)]
    && c.spec == CommitSpec("", "", o.key.name, commit, o.spec.branch, "", "", false, false, "",
                            o.spec.repositoryURL, "", "", "", "", "")
    && c.status == CommitStatus([], "", "", "", None)
  }

  lemma DesiredIsAppliedFor(cfg: Config, o: Watcher, commit: string)
    ensures AppliedFor(cfg, o, commit, DesiredCommit(cfg, o, commit))
  {
    var short := cfg.md5Hex(commit);
    if |short| >= 5 {
      assert Limit(short, 5) == short[..5];
      var digest := cfg.sha256Hex(o.key.name + "-" + short[..5]);
      if |digest| >= 5 { assert Limit(digest, 5) == digest[..5]; }
    }
  }

  // ---------- Conditions ----------

  // What setting a condition leaves in it.
  lemma MarkedFields(c: Condition, err: Option<string>, now: string)
    ensures var m := Mark(c, err, now);
      && m.kind == c.kind && m.lastTransitionTime == c.lastTransitionTime
      && m.status == (if err.Some? then "False" else "True")
      && m.message == (if err.Some? then err.value else "")
      && m.reason == (if err.Some? then "Error" else "")
      && m.lastUpdateTime == (if m.status != c.status || m.message != c.message then now else c.lastUpdateTime)
  {
  }

  // Some condition of the kind says that this error happened.
  ghost predicate SaysFailed(conditions: seq<Condition>, kind: string, err: string) {
    exists i :: 0 <= i < |conditions| && conditions[i].kind == kind && conditions[i].status == "False" &&
      conditions[i].message == err && conditions[i].reason == "Error"
  }

  // After an error it says so, and the conditions of other kinds are as they were.
  lemma {:induction false} ErrorIsSaid(conditions: seq<Condition>, kind: string, err: string, now: string)
    ensures var after := SetError(conditions, kind, Some(err), now);
      && SaysFailed(after, kind, err)
      && |conditions| <= |after|
      && forall i :: 0 <= i < |conditions| && conditions[i].kind != kind ==> after[i] == conditions[i]
  {
    var after := SetError(conditions, kind, Some(err), now);
    if |conditions| == 0 || conditions[0].kind == kind {
      MarkedFields(if |conditions| == 0 then NewCondition(kind) else conditions[0], Some(err), now);
      assert after[0].kind == kind && after[0].status == "False";
      assert after[0].message == err && after[0].reason == "Error";
    } else {
      ErrorIsSaid(conditions[1..], kind, err, now);
      var rest := SetError(conditions[1..], kind, Some(err), now);
      var i :| 0 <= i < |rest| && rest[i].kind == kind && rest[i].status == "False" && rest[i].message == err &&
        rest[i].reason == "Error";
      assert after[i + 1] == rest[i];
      forall j | 0 <= j < |conditions| && conditions[j].kind != kind ensures after[j] == conditions[j] {
        if j > 0 { assert conditions[1..][j - 1] == conditions[j]; }
      }
    }
  }
}
