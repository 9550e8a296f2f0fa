/**
 * The two live teaching modules (modules/basic.py, modules/clone_commit_update_push.py)
 * and the name-to-module registry (modules/__init__.py).
 */
module Catalog {
  import opened Wrappers
  import opened GitHub
  import opened Core
  import opened LiveEngine
  import BasicLesson
  import PushLesson

  /** The organisation both live modules create their repositories under. */
  const Org := "cs334f24"

  const BasicName := "basic module"
  const PushName := "push-after-update"

  /** "basic module": AddReadme followed by five dummy steps, in a fresh repository under the organisation. */
  function BasicModule(): (m: Module)
    ensures m.name == BasicName && m.initializer == NewRepoUnder(Org)
    ensures |m.steps| == 6 && m.steps[0] == AddReadme
    ensures forall i :: 1 <= i < 6 ==> m.steps[i] == Dummy(BasicLesson.DummyText(i - 1))
  {
    Module(BasicName, NewRepoUnder(Org), [AddReadme] + seq(5, i requires 0 <= i => Dummy(BasicLesson.DummyText(i))))
  }

  /** Every check of the basic module passes with an empty message, whatever the repository holds. */
  lemma BasicModuleAlwaysGood(s: Server, repo: Handle, i: int)
    requires 0 <= i < |BasicModule().steps|
    ensures CheckOutcome(BasicModule().steps[i], s, repo) == Success(Checked(GOOD, ""))
  {
  }

  /** Only the first step of the basic module changes the repository: it commits the README. */
  lemma BasicModuleActions(s: Server, repo: Handle, words: seq<string>, i: int)
    requires 0 <= i < |BasicModule().steps|
    ensures i == 0 ==> ActEffect(BasicModule().steps[i], s, repo, words).0 == Apply(s, PutFile(s, repo, BasicLesson.ReadmeWrite))
    ensures i > 0 ==> ActEffect(BasicModule().steps[i], s, repo, words) == (s, Success(()))
  {
  }

  /** "push-after-update": Clone, PushNoConflict, PushAfterUpdate, End, each commit watcher with an empty baseline map. */
  method PushAfterUpdateModule() returns (m: Module)
    ensures m.name == PushName && m.initializer == NewRepoUnder(Org)
    ensures |m.steps| == 4
    ensures m.steps[0] == Clone && m.steps[1].NoConflict? && m.steps[2].AfterUpdate? && m.steps[3] == End
    ensures fresh(m.steps[1].noConflict) && fresh(m.steps[2].afterUpdate)
    ensures m.steps[1].noConflict.previousCommit == map[] && m.steps[2].afterUpdate.previousCommit == map[]
  {
    var noConflict := new PushLesson.PushNoConflict();
    var afterUpdate := new PushLesson.PushAfterUpdate();
    m := Module(PushName, NewRepoUnder(Org), [Clone, NoConflict(noConflict), AfterUpdate(afterUpdate), End]);
  }

  /** `active_modules`: exactly the two live modules, each under its own name. */
  method ActiveModules() returns (registry: map<string, Module>)
    ensures registry.Keys == {BasicName, PushName}
    ensures forall key :: key in registry ==> registry[key].name == key
    ensures registry[BasicName] == BasicModule()
    ensures var push := registry[PushName].steps;
      |push| == 4 && push[0] == Clone && push[1].NoConflict? && push[2].AfterUpdate? && push[3] == End
  {
    var push := PushAfterUpdateModule();
    registry := map[BasicName := BasicModule(), PushName := push];
  }

  /**
   * Opening a live session on the basic module: it is refused with
   * ValueError exactly when the cursor is not one of the first five steps,
   * so a session can never resume on the last one.
   */
  method StartBasicModule(hub: Hub, user: string, repoName: string, currentStep: int, adjective: string, noun: string)
    returns (r: Result<Session, Errors.Exc>)
    modifies hub
    ensures r == Failure(Errors.ValueError("Invalid current step")) <==> !(0 <= currentStep <= 4)
    ensures r.Success? ==> r.value.lesson == BasicModule() && r.value.currentStep == currentStep
    ensures !(0 <= currentStep <= 4) ==> hub.server == old(hub.server)
  {
    r := Session.Start(hub, user, Org, BasicModule(), repoName, currentStep, adjective, noun);
  }
}
