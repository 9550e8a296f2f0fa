/**
 * The steps of the "push-after-update" lesson
 * (modules/clone_commit_update_push.py). Two of them wait for the learner
 * to push: each keeps, per repository name, a baseline commit, and passes
 * once the latest commit differs from it.
 */
module PushLesson {
  import opened Wrappers
  import opened GitHub
  import opened Core
  import Runtime

  const CloneReadme :=
    "# README\n\nIt is good practice to include a README.md file within your repository.\n\n## Contributors\n\n- Contributor1\n                "

  /** The two commits `CloneStep.action` makes, in order. */
  const CloneWrites := [
    FileWrite(ReadmePath, "Add README", CloneReadme),
    FileWrite("favorite_colors.txt", "Create favorite colors file", "red")
  ]

  const NoNewCommit := "No new commit pushed"
  const AllGood := "All good!"

  /** First headings of the static pages; the rest of that prose is not modelled. */
  const NoConflictPage := "## Adding Changes Locally"
  const AfterUpdatePage := "## Adding more changes"
  const EndPage := "You have completed this module!"

  /** The file `PushAfterUpdate.action` commits: the random words, one per line. */
  function RandomWordsWrite(words: seq<string>): FileWrite {
    FileWrite("random_words.txt", "Add random words", Runtime.JoinLines(words))
  }

  /** `CloneStep.action`: README.md, then favorite_colors.txt, stopping at the first failure. */
  method CloneAction(hub: Hub, repo: Handle) returns (r: Result<(), ApiError>)
    modifies hub
    ensures (hub.server, r) == Writes(old(hub.server), repo, CloneWrites)
  {
    ghost var s0 := hub.server;
    assert CloneWrites[1..] == [CloneWrites[1]] && CloneWrites[1..][1..] == [];
    r := hub.CreateFile(repo, CloneWrites[0]);
    if r.Success? {
      ghost var s1 := hub.server;
      assert Writes(s0, repo, CloneWrites) == Writes(s1, repo, [CloneWrites[1]]);
      r := hub.CreateFile(repo, CloneWrites[1]);
    }
  }

  /** `CloneStep.check` and `EndStep.check` pass with an empty message whatever the repository holds. */
  function PassCheck(s: Server, repo: Handle): (c: Checked)
    ensures c.result == GOOD && c.message == ""
  {
    Checked(GOOD, "")
  }

  /** `CloneStep.instructions`: names the clone URL and the directory to enter. */
  function CloneInstructions(repo: Handle): string {
    "## Cloning the Repo\n\ngit clone " + SshUrl(repo) + "\ncd " + repo.name
      + "\n\nYou have now created a local copy of " + repo.name + ".\n"
  }

  /** `str(commit)` of a commit object. */
  function CommitText(c: Commit): string {
    "Commit(sha=\"" + Runtime.Decimal(c.sha) + "\")"
  }

  /** Which of the two commit-detection steps is checking: they differ only in the GOOD message. */
  datatype Watcher = NoConflictWatch | AfterUpdateWatch

  function GoodMessage(w: Watcher, latest: Commit): string {
    match w
    case NoConflictWatch => CommitText(latest)
    case AfterUpdateWatch => AllGood
  }

  /**
   * The baseline map after a check on a repository named `name` whose
   * commits are `commits`: a missing entry is seeded with the
   * second-most-recent commit (the only one, if there is just one); an
   * existing entry is never replaced, and no other entry changes.
   */
  function Seed(previous: map<string, Commit>, name: string, commits: seq<Commit>): (m: map<string, Commit>)
    requires |commits| > 0
    ensures m.Keys == previous.Keys + {name}
    ensures forall k :: k in previous ==> m[k] == previous[k]
    ensures name !in previous ==> m[name] == if |commits| > 1 then commits[1] else commits[0]
  {
    if name in previous then previous
    else previous[name := if |commits| > 1 then commits[1] else commits[0]]
  }

  /** The verdict against a baseline: GOOD exactly when the latest sha differs from it. */
  function Detect(w: Watcher, baseline: Commit, latest: Commit): (c: Checked)
    ensures c.result == GOOD <==> baseline.sha != latest.sha
    ensures c.result != GOOD ==> c == Checked(USER_ERROR, NoNewCommit)
    ensures c.result == GOOD ==> c.message == GoodMessage(w, latest)
  {
    if baseline.sha == latest.sha then Checked(USER_ERROR, NoNewCommit)
    else Checked(GOOD, GoodMessage(w, latest))
  }

  /**
   * One check of a commit-detection step, given what `get_commits` answered:
   * the verdict (or the API error) and the new baseline map.
   */
  function Observed(w: Watcher, previous: map<string, Commit>, name: string, listed: Result<seq<Commit>, ApiError>)
    : (out: (Result<Checked, ApiError>, map<string, Commit>))
    requires listed.Success? ==> |listed.value| > 0
  {
    match listed
    case Failure(e) => (Failure(e), previous)
    case Success(commits) =>
      var m := Seed(previous, name, commits);
      (Success(Detect(w, m[name], commits[0])), m)
  }

  /**
   * Checking again without a new commit gives the same verdict and leaves
   * the baselines as the first check left them.
   */
  lemma ObserveAgain(w: Watcher, previous: map<string, Commit>, name: string, listed: Result<seq<Commit>, ApiError>)
    requires listed.Success? ==> |listed.value| > 0
    ensures Observed(w, Observed(w, previous, name, listed).1, name, listed) == Observed(w, previous, name, listed)
  {
    if listed.Success? {
      var m := Seed(previous, name, listed.value);
      assert Seed(m, name, listed.value) == m;
    }
  }

  /** A check that fails or passes touches only the entry of the repository it looked at. */
  lemma ObserveIsolated(w: Watcher, previous: map<string, Commit>, name: string, listed: Result<seq<Commit>, ApiError>, other: string)
    requires listed.Success? ==> |listed.value| > 0
    requires other != name
    ensures other in Observed(w, previous, name, listed).1 <==> other in previous
    ensures other in previous ==> Observed(w, previous, name, listed).1[other] == previous[other]
  {
  }

  /**
   * Once a baseline taken from the repository's own history exists, a
   * commit the learner pushes is detected: its sha is new.
   */
  lemma PushDetected(w: Watcher, s: Server, repo: Handle, previous: map<string, Commit>, i: nat, message: string)
    requires Valid(s)
    requires Commits(s, repo).Success? && i < |Commits(s, repo).value|
    requires repo.name in previous && previous[repo.name] == Commits(s, repo).value[i]
    requires Pushed(s, repo, message).Success?
    ensures Observed(w, previous, repo.name, Commits(Pushed(s, repo, message).value, repo)).0
         == Success(Checked(GOOD, GoodMessage(w, Commit(s.clock, message))))
  {
    var s' := Pushed(s, repo, message).value;
    assert s.repos[Key(repo)].commits[i].sha < s.clock;
    assert Commits(s', repo).value[0] == Commit(s.clock, message);
  }

  /** `PushNoConflict`: its action does nothing; its check waits for a new commit. */
  class PushNoConflict {
    var previousCommit: map<string, Commit>

    constructor ()
      ensures previousCommit == map[]
    {
      previousCommit := map[];
    }

    method Check(hub: Hub, repo: Handle) returns (r: Result<Checked, ApiError>)
      modifies this
      ensures (r, previousCommit) == Observed(NoConflictWatch, old(previousCommit), repo.name, Commits(hub.server, repo))
    {
      var listed := Commits(hub.server, repo);
      match listed
      case Failure(e) =>
        r := Failure(e);
      case Success(commits) =>
        if repo.name !in previousCommit {
          previousCommit := previousCommit[repo.name := if |commits| > 1 then commits[1] else commits[0]];
        }
        if previousCommit[repo.name].sha == commits[0].sha {
          r := Success(Checked(USER_ERROR, NoNewCommit));
        } else {
          r := Success(Checked(GOOD, CommitText(commits[0])));
        }
    }
  }

  /**
   * `PushAfterUpdate`: its action commits a file of random words (as if a
   * collaborator had pushed) and takes that commit as the baseline; its
   * check waits for the learner's commit after it.
   */
  class PushAfterUpdate {
    var previousCommit: map<string, Commit>

    constructor ()
      ensures previousCommit == map[]
    {
      previousCommit := map[];
    }

    method Action(hub: Hub, repo: Handle, words: seq<string>) returns (r: Result<(), ApiError>)
      modifies this, hub
      ensures hub.server == Apply(old(hub.server), PutFile(old(hub.server), repo, RandomWordsWrite(words)))
      ensures r == Status(PutFile(old(hub.server), repo, RandomWordsWrite(words)))
      ensures r.Failure? ==> previousCommit == old(previousCommit)
      ensures r.Success? ==>
        previousCommit == old(previousCommit)[repo.name := Commit(old(hub.server).clock, "Add random words")]
    {
      r := hub.CreateFile(repo, RandomWordsWrite(words));
      if r.Success? {
        var listed := Commits(hub.server, repo);
        match listed
        case Failure(e) =>
          r := Failure(e);
        case Success(commits) =>
          previousCommit := previousCommit[repo.name := commits[0]];
      }
    }

    method Check(hub: Hub, repo: Handle) returns (r: Result<Checked, ApiError>)
      modifies this
      ensures (r, previousCommit) == Observed(AfterUpdateWatch, old(previousCommit), repo.name, Commits(hub.server, repo))
    {
      var listed := Commits(hub.server, repo);
      match listed
      case Failure(e) =>
        r := Failure(e);
      case Success(commits) =>
        if repo.name !in previousCommit {
          previousCommit := previousCommit[repo.name := if |commits| > 1 then commits[1] else commits[0]];
        }
        if previousCommit[repo.name].sha == commits[0].sha {
          r := Success(Checked(USER_ERROR, NoNewCommit));
        } else {
          r := Success(Checked(GOOD, AllGood));
        }
    }
  }

  /** Right after `PushAfterUpdate.action` succeeds, its check reports that nothing new was pushed. */
  lemma CheckRightAfterUpdate(s: Server, repo: Handle, words: seq<string>, previous: map<string, Commit>)
    requires PutFile(s, repo, RandomWordsWrite(words)).Success?
    ensures var s' := PutFile(s, repo, RandomWordsWrite(words)).value;
      Observed(AfterUpdateWatch, previous[repo.name := Commit(s.clock, "Add random words")], repo.name, Commits(s', repo)).0
        == Success(Checked(USER_ERROR, NoNewCommit))
  {
  }
}

/**
 * The lazy seeding of a missing baseline, as written and as its commented-out
 * alternative in `PushNoConflict.action` would have it.
 */
module PushSeeding {
  import opened Wrappers
  import opened GitHub
  import opened Core
  import opened PushLesson

  /**
   * As written: on the repository exactly as `CloneStep.action` leaves a
   * freshly created one, the first `PushNoConflict` check already passes,
   * although the learner has pushed nothing. The lazily seeded baseline is
   * the README commit, and the latest commit is the colours file.
   */
  lemma FirstCheckPassesWithoutPush(s: Server, repo: Handle)
    requires Valid(s)
    requires s.outage.None? && Key(repo) in s.repos
    requires s.repos[Key(repo)].files == map[] && s.repos[Key(repo)].commits == []
    ensures var after := Writes(s, repo, CloneWrites);
      && after.1.Success?
      && Observed(NoConflictWatch, map[], repo.name, Commits(after.0, repo)).0.Success?
      && Observed(NoConflictWatch, map[], repo.name, Commits(after.0, repo)).0.value.result == GOOD
  {
    var s1 := PutFile(s, repo, CloneWrites[0]).value;
    var s2 := PutFile(s1, repo, CloneWrites[1]).value;
    assert CloneWrites[1..] == [CloneWrites[1]] && CloneWrites[1..][1..] == [];
    assert Writes(s, repo, CloneWrites) == Writes(s1, repo, [CloneWrites[1]]) == (s2, Success(()));
    var commits := Commits(s2, repo).value;
    assert commits == [Commit(s1.clock, CloneWrites[1].message), Commit(s.clock, CloneWrites[0].message)];
  }

  /**
   * The seeding the step evidently intends: when the learner enters the
   * step, the latest commit becomes the baseline.
   */
  function SeedAtEntry(previous: map<string, Commit>, name: string, commits: seq<Commit>): (m: map<string, Commit>)
    requires |commits| > 0
    ensures m.Keys == previous.Keys + {name}
    ensures m[name] == commits[0]
    ensures forall k :: k in previous && k != name ==> m[k] == previous[k]
  {
    previous[name := commits[0]]
  }

  /**
   * With the baseline taken at entry, the check fails until the learner
   * pushes, and passes once a commit is pushed.
   */
  lemma EntrySeedWaitsForPush(w: Watcher, s: Server, repo: Handle, previous: map<string, Commit>, message: string)
    requires Valid(s)
    requires Commits(s, repo).Success?
    ensures var m := SeedAtEntry(previous, repo.name, Commits(s, repo).value);
      && Observed(w, m, repo.name, Commits(s, repo)).0 == Success(Checked(USER_ERROR, NoNewCommit))
      && (Pushed(s, repo, message).Success? ==>
            Observed(w, m, repo.name, Commits(Pushed(s, repo, message).value, repo)).0
              == Success(Checked(GOOD, GoodMessage(w, Commit(s.clock, message)))))
  {
    var m := SeedAtEntry(previous, repo.name, Commits(s, repo).value);
    if Pushed(s, repo, message).Success? {
      PushDetected(w, s, repo, m, 0, message);
    }
  }
}
