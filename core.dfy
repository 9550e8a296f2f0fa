/**
 * The parts of module_core/steps.py that every lesson shares: the four
 * check outcomes, the pair a check returns, and the two ways a module
 * provisions the learner's repository under an organisation.
 */
module Core {
  import opened Wrappers
  import opened GitHub
  import opened Errors

  /** The outcome of a step's check. */
  datatype CheckResult = USER_ERROR | RECOVERABLE | GOOD | UNRECOVERABLE

  /** The `(result, message)` pair a step's check returns. */
  datatype Checked = Checked(result: CheckResult, message: string)

  /** The random repository name `adjective + "-" + noun`. */
  function RepoName(adjective: string, noun: string): (r: string)
    ensures |r| == |adjective| + 1 + |noun|
    ensures r[..|adjective|] == adjective && r[|adjective|] == '-' && r[|adjective| + 1..] == noun
  {
    adjective + "-" + noun
  }

  /**
   * When the adjectives hold no hyphen, a generated name determines the
   * words it was made from: the first hyphen separates them.
   */
  lemma RepoNameDetermines(a1: string, n1: string, a2: string, n2: string)
    requires '-' !in a1 && '-' !in a2
    requires RepoName(a1, n1) == RepoName(a2, n2)
    ensures a1 == a2 && n1 == n2
  {
    var r := RepoName(a1, n1);
    assert forall k :: 0 <= k < |a1| ==> r[k] == a1[k] && r[k] != '-';
    assert forall k :: 0 <= k < |a2| ==> r[k] == a2[k] && r[k] != '-';
    assert |a1| == |a2|;
  }

  /**
   * `create_repo(github, org_name)`: looks the organisation up and creates
   * an empty repository named after the two random words under it.
   */
  method CreateRepo(hub: Hub, org: string, adjective: string, noun: string) returns (r: Result<Handle, Exc>)
    modifies hub
    ensures var out := NewRepo(old(hub.server), org, RepoName(adjective, noun));
      && hub.server == Apply(old(hub.server), out)
      && (out.Success? ==> r == Success(Handle(org, RepoName(adjective, noun))))
      && (out.Failure? ==> r == Failure(Github(out.error)))
  {
    var made := hub.CreateRepo(org, RepoName(adjective, noun));
    r := if made.Success? then Success(made.value) else Failure(Github(made.error));
  }

  /**
   * `create_repo_from_template(github, template, org_name)`: the same name,
   * but the new repository starts as a copy of the template.
   */
  method CreateRepoFromTemplate(hub: Hub, template: Handle, org: string, adjective: string, noun: string)
    returns (r: Result<Handle, Exc>)
    modifies hub
    ensures var out := NewRepoFromTemplate(old(hub.server), org, RepoName(adjective, noun), template);
      && hub.server == Apply(old(hub.server), out)
      && (out.Success? ==> r == Success(Handle(org, RepoName(adjective, noun))))
      && (out.Failure? ==> r == Failure(Github(out.error)))
  {
    var made := hub.CreateRepoFromTemplate(org, RepoName(adjective, noun), template);
    r := if made.Success? then Success(made.value) else Failure(Github(made.error));
  }
}
