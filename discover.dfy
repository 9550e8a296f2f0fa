/**
 * The steps of discover/basic.py, written against the older engine's step
 * interface (modules/steps.py): a check answers a bare `CheckResult`.
 */
module Discover {
  import opened Wrappers
  import opened GitHub
  import opened Core
  import BasicLesson

  datatype Step = AddReadme | Dummy(text: string)

  /** The title of the AddReadme page; the source's string opens with a stray quote. */
  const GreetingPage := "\"Welcome to Git Learner!"

  /**
   * A step's `check`. AddReadme asks for the README: found means GOOD; the
   * lookup of a missing README raises (404) before the UNRECOVERABLE branch
   * could be reached. A dummy step is always GOOD.
   */
  function Check(step: Step, s: Server, repo: Handle): (r: Result<CheckResult, ApiError>)
    ensures step.Dummy? ==> r == Success(GOOD)
    ensures step.AddReadme? ==> (r == Success(GOOD) <==> Readme(s, repo).Success?)
    ensures step.AddReadme? && Readme(s, repo).Failure? ==> r == Failure(Readme(s, repo).error)
  {
    match step
    case Dummy(_) => Success(GOOD)
    case AddReadme =>
      match Readme(s, repo)
      case Success(_) => Success(GOOD)
      case Failure(e) => Failure(e)
  }

  /** What a step's `action` does to the service. */
  function ActEffect(step: Step, s: Server, repo: Handle): (Server, Result<(), ApiError>) {
    match step
    case AddReadme => (Apply(s, PutFile(s, repo, BasicLesson.ReadmeWrite)), Status(PutFile(s, repo, BasicLesson.ReadmeWrite)))
    case Dummy(_) => (s, Success(()))
  }

  method Act(step: Step, hub: Hub, repo: Handle) returns (r: Result<(), ApiError>)
    modifies hub
    ensures (hub.server, r) == ActEffect(step, old(hub.server), repo)
  {
    match step
    case AddReadme => r := hub.CreateFile(repo, BasicLesson.ReadmeWrite);
    case Dummy(_) => r := Success(());
  }

  function Instructions(step: Step): (r: string)
    ensures step.Dummy? ==> r == BasicLesson.DummyInstructions(step.text)
  {
    match step
    case AddReadme => GreetingPage
    case Dummy(text) => BasicLesson.DummyInstructions(text)
  }

  /**
   * AddReadme's action and check agree: once the action has committed the
   * README, the check is GOOD; a dummy step's action changes nothing.
   */
  lemma ActThenCheck(step: Step, s: Server, repo: Handle)
    ensures ActEffect(step, s, repo).1.Success? ==> Check(step, ActEffect(step, s, repo).0, repo) == Success(GOOD)
    ensures step.Dummy? ==> ActEffect(step, s, repo).0 == s
  {
    if step.AddReadme? && PutFile(s, repo, BasicLesson.ReadmeWrite).Success? {
      var s' := PutFile(s, repo, BasicLesson.ReadmeWrite).value;
      assert Key(repo) in s'.repos && ReadmePath in s'.repos[Key(repo)].files;
      assert Locate(s', Key(repo)).Success?;
    }
  }
}

/** The six-step module of discover/basic.py. */
module DiscoverCatalog {
  import opened GitHub
  import opened Core
  import opened Discover
  import OlderEngine
  import BasicLesson

  /** "basic module": AddReadme, then five dummy steps numbered from 0. */
  function BasicModule(): (m: OlderEngine.Module<Step>)
    ensures m.name == "basic module"
    ensures |m.steps| == 6 && m.steps[0] == AddReadme
    ensures forall i :: 1 <= i < 6 ==> m.steps[i] == Dummy(BasicLesson.DummyText(i - 1))
  {
    OlderEngine.Module("basic module", [AddReadme] + seq(5, i requires 0 <= i => Dummy(BasicLesson.DummyText(i))))
  }

  /** How the older engine runs these steps. */
  const Ops: OlderEngine.StepOps<Step> := OlderEngine.StepOps(Check, ActEffect, Instructions)

  /**
   * Run by the older engine, these steps answer GOOD or raise: none of
   * `next()`'s toast branches for other results is reached.
   */
  lemma OnlyGoodOrRaise(step: Step, s: Server, repo: Handle)
    ensures Ops.check(step, s, repo).Success? ==> Ops.check(step, s, repo).value == GOOD
  {
  }
}
