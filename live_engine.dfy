/**
 * The live step-progression engine (module_core/steps.py): a module is a
 * named list of steps with a repository initializer; a session holds a
 * cursor into the module and moves it according to the current step's
 * check.
 */
module LiveEngine {
  import opened Wrappers
  import opened GitHub
  import opened Core
  import opened Errors
  import opened Runtime
  import BasicLesson
  import PushLesson

  /** The step kinds the live modules are built from. */
  datatype Step =
    | AddReadme                                         // modules/basic.py
    | Dummy(text: string)                               // modules/basic.py
    | Clone                                             // modules/clone_commit_update_push.py
    | NoConflict(noConflict: PushLesson.PushNoConflict)
    | AfterUpdate(afterUpdate: PushLesson.PushAfterUpdate)
    | End

  /** The objects whose baseline maps a step updates. */
  function Objects(step: Step): set<object> {
    match step
    case NoConflict(p) => {p}
    case AfterUpdate(p) => {p}
    case _ => {}
  }

  function AllObjects(steps: seq<Step>): set<object> {
    (set i | 0 <= i < |steps| && steps[i].NoConflict? :: steps[i].noConflict as object)
    + (set i | 0 <= i < |steps| && steps[i].AfterUpdate? :: steps[i].afterUpdate as object)
  }

  lemma ObjectsOfStep(steps: seq<Step>, i: int)
    requires 0 <= i < |steps|
    ensures Objects(steps[i]) <= AllObjects(steps)
  {
  }

  /** What a step's `check` answers, given its baselines and the service's state. */
  function CheckOutcome(step: Step, s: Server, repo: Handle): (r: Result<Checked, ApiError>)
    reads Objects(step)
    ensures !step.NoConflict? && !step.AfterUpdate? ==> r == Success(Checked(GOOD, ""))
    ensures r.Success? && r.value.result != GOOD ==> r.value == Checked(USER_ERROR, PushLesson.NoNewCommit)
  {
    match step
    case AddReadme => Success(BasicLesson.AddReadmeCheck(s, repo))
    case Dummy(_) => Success(BasicLesson.DummyCheck(s, repo))
    case Clone => Success(PushLesson.PassCheck(s, repo))
    case NoConflict(p) => PushLesson.Observed(PushLesson.NoConflictWatch, p.previousCommit, repo.name, Commits(s, repo)).0
    case AfterUpdate(p) => PushLesson.Observed(PushLesson.AfterUpdateWatch, p.previousCommit, repo.name, Commits(s, repo)).0
    case End => Success(PushLesson.PassCheck(s, repo))
  }

  /** What a step's `action` does to the service: the server afterwards and whether the action raised. */
  function ActEffect(step: Step, s: Server, repo: Handle, words: seq<string>): (out: (Server, Result<(), ApiError>))
    ensures step.Dummy? || step.NoConflict? || step.End? ==> out == (s, Success(()))
    ensures !step.Clone? && out.1.Failure? ==> out.0 == s
    ensures out.1.Success? && (step.AddReadme? || step.AfterUpdate?) ==> out.0.clock == s.clock + 1
    ensures out.1.Success? && step.Clone? ==> out.0.clock == s.clock + 2
    ensures out.1.Success? && step.AddReadme? ==>
      GitHub.Key(repo) in s.repos && GitHub.Key(repo) in out.0.repos
      && out.0.repos[GitHub.Key(repo)].commits == [Commit(s.clock, BasicLesson.ReadmeWrite.message)] + s.repos[GitHub.Key(repo)].commits
    ensures out.1.Success? && step.AfterUpdate? ==>
      GitHub.Key(repo) in s.repos && GitHub.Key(repo) in out.0.repos
      && out.0.repos[GitHub.Key(repo)].commits == [Commit(s.clock, PushLesson.RandomWordsWrite(words).message)] + s.repos[GitHub.Key(repo)].commits
    ensures out.1.Success? && step.Clone? ==>
      GitHub.Key(repo) in s.repos && GitHub.Key(repo) in out.0.repos
      && |out.0.repos[GitHub.Key(repo)].commits| == |s.repos[GitHub.Key(repo)].commits| + 2
      && out.0.repos[GitHub.Key(repo)].commits[2..] == s.repos[GitHub.Key(repo)].commits
  {
    match step
    case AddReadme => (Apply(s, PutFile(s, repo, BasicLesson.ReadmeWrite)), Status(PutFile(s, repo, BasicLesson.ReadmeWrite)))
    case Clone => Writes(s, repo, PushLesson.CloneWrites)
    case AfterUpdate(_) =>
      (Apply(s, PutFile(s, repo, PushLesson.RandomWordsWrite(words))), Status(PutFile(s, repo, PushLesson.RandomWordsWrite(words))))
    case _ => (s, Success(()))
  }

  /** A step's `instructions`. */
  function InstructionsOf(step: Step, repo: Handle): string {
    match step
    case AddReadme => BasicLesson.WelcomePage
    case Dummy(text) => BasicLesson.DummyInstructions(text)
    case Clone => PushLesson.CloneInstructions(repo)
    case NoConflict(_) => PushLesson.NoConflictPage
    case AfterUpdate(_) => PushLesson.AfterUpdatePage
    case End => PushLesson.EndPage
  }

  /** Runs a step's `check`. */
  method CheckStep(step: Step, hub: Hub, repo: Handle) returns (r: Result<Checked, ApiError>)
    modifies Objects(step)
    ensures r == old(CheckOutcome(step, hub.server, repo))
    ensures step.NoConflict? ==>
      step.noConflict.previousCommit
      == old(PushLesson.Observed(PushLesson.NoConflictWatch, step.noConflict.previousCommit, repo.name, Commits(hub.server, repo)).1)
    ensures step.AfterUpdate? ==>
      step.afterUpdate.previousCommit
      == old(PushLesson.Observed(PushLesson.AfterUpdateWatch, step.afterUpdate.previousCommit, repo.name, Commits(hub.server, repo)).1)
  {
    match step
    case AddReadme => r := Success(BasicLesson.AddReadmeCheck(hub.server, repo));
    case Dummy(_) => r := Success(BasicLesson.DummyCheck(hub.server, repo));
    case Clone => r := Success(PushLesson.PassCheck(hub.server, repo));
    case NoConflict(p) => r := p.Check(hub, repo);
    case AfterUpdate(p) => r := p.Check(hub, repo);
    case End => r := Success(PushLesson.PassCheck(hub.server, repo));
  }

  /** Runs a step's `action`; only `PushAfterUpdate` touches its baselines. */
  method ActStep(step: Step, hub: Hub, repo: Handle, words: seq<string>) returns (r: Result<(), ApiError>)
    modifies hub, Objects(step)
    ensures (hub.server, r) == ActEffect(step, old(hub.server), repo, words)
    ensures step.NoConflict? ==> step.noConflict.previousCommit == old(step.noConflict.previousCommit)
    ensures step.AfterUpdate? && r.Failure? ==> step.afterUpdate.previousCommit == old(step.afterUpdate.previousCommit)
    ensures step.AfterUpdate? && r.Success? ==>
      step.afterUpdate.previousCommit
      == old(step.afterUpdate.previousCommit)[repo.name := Commit(old(hub.server).clock, "Add random words")]
  {
    match step
    case AddReadme => r := BasicLesson.AddReadmeAction(hub, repo);
    case Dummy(_) => r := Success(());
    case Clone => r := PushLesson.CloneAction(hub, repo);
    case NoConflict(_) => r := Success(());
    case AfterUpdate(p) => r := p.Action(hub, repo, words);
    case End => r := Success(());
  }

  /** The `initializer` a module is built with: how a fresh session gets its repository. */
  datatype Initializer =
    | NewRepoUnder(org: string)
    | TemplateUnder(template: Handle, org: string)
  {
    /** What provisioning does to the service. */
    function Outcome(s: Server, adjective: string, noun: string): Result<Server, ApiError> {
      match this
      case NewRepoUnder(org) => NewRepo(s, org, RepoName(adjective, noun))
      case TemplateUnder(template, org) => NewRepoFromTemplate(s, org, RepoName(adjective, noun), template)
    }
  }

  datatype Module = Module(name: string, initializer: Initializer, steps: seq<Step>) {

    /** `len(module)`: the number of steps it was built with. */
    function Length(): (n: nat)
      ensures n == |steps|
    {
      |steps|
    }

    /**
     * `module[index]`: a non-integer key raises ValueError; an integer goes
     * straight to the list, so a negative one counts from the end and one
     * past either end raises IndexError.
     */
    function Get(key: Key): (r: Result<Step, Exc>)
      ensures key.OtherKey? ==> r == Failure(ValueError("Expected integer index, recieved <class '" + key.typeName + "'>"))
      ensures key.IntKey? && 0 <= key.i < |steps| ==> r == Success(steps[key.i])
      ensures key.IntKey? && -|steps| <= key.i < 0 ==> r == Success(steps[|steps| + key.i])
      ensures key.IntKey? && !(-|steps| <= key.i < |steps|) ==> r == Failure(IndexError(ListIndexMessage))
    {
      match key
      case OtherKey(t) => Failure(ValueError("Expected integer index, recieved <class '" + t + "'>"))
      case IntKey(i) =>
        match ListIndex(steps, i)
        case Success(step) => Success(step)
        case Failure(m) => Failure(IndexError(m))
    }

    /** `module.create(github)`: provisions the learner's repository with the initializer. */
    method Create(hub: Hub, adjective: string, noun: string) returns (r: Result<Handle, Exc>)
      modifies hub
      ensures var out := initializer.Outcome(old(hub.server), adjective, noun);
        && hub.server == Apply(old(hub.server), out)
        && (out.Success? ==> r == Success(Handle(initializer.org, RepoName(adjective, noun))))
        && (out.Failure? ==> r == Failure(Github(out.error)))
    {
      match initializer
      case NewRepoUnder(org) => r := CreateRepo(hub, org, adjective, noun);
      case TemplateUnder(template, org) => r := CreateRepoFromTemplate(hub, template, org, adjective, noun);
    }
  }

  /** A check outcome with API failures raised as exceptions. */
  function Lift(out: Result<Checked, ApiError>): Result<Checked, Exc> {
    match out
    case Success(c) => Success(c)
    case Failure(e) => Failure(Github(e))
  }

  /**
   * Where `next()` leaves the cursor, given what the call's check produced:
   * one step further exactly when the cursor was on a step and its check
   * was GOOD, else where it was.
   */
  function CursorAfterNext(current: int, len: nat, outcome: Result<Checked, Exc>): (c: int)
    ensures c == current || c == current + 1
    ensures c == current + 1 <==> current < len && outcome.Success? && outcome.value.result == GOOD
  {
    if current < len && outcome.Success? && outcome.value.result == GOOD then current + 1 else current
  }

  /** How many outcomes in a run are GOOD. */
  function GoodCount(outcomes: seq<Result<Checked, Exc>>): nat {
    if outcomes == [] then 0
    else (if outcomes[0].Success? && outcomes[0].value.result == GOOD then 1 else 0) + GoodCount(outcomes[1..])
  }

  /** The cursor after a run of `next()` calls whose checks produced `outcomes`. */
  function RunCursor(current: int, len: nat, outcomes: seq<Result<Checked, Exc>>): int
    decreases |outcomes|
  {
    if outcomes == [] then current
    else RunCursor(CursorAfterNext(current, len, outcomes[0]), len, outcomes[1..])
  }

  function Min(a: int, b: int): int {
    if a <= b then a else b
  }

  /**
   * Over any run of `next()` calls the cursor never moves back and never
   * passes the number of steps: it ends at the start plus the number of
   * GOOD checks, capped at that number.
   */
  lemma {:induction false} RunCountsGood(current: int, len: nat, outcomes: seq<Result<Checked, Exc>>)
    requires 0 <= current <= len
    ensures RunCursor(current, len, outcomes) == Min(len, current + GoodCount(outcomes))
    decreases |outcomes|
  {
    if outcomes != [] {
      var next := CursorAfterNext(current, len, outcomes[0]);
      RunCountsGood(next, len, outcomes[1..]);
    }
  }

  /** The two kinds of Python value that `Session.check` compares. */
  datatype Compared = Pair(checked: Checked) | Member(result: CheckResult)

  /**
   * As written, `Session.check` compares the `(result, message)` pair with
   * the enumeration member GOOD: a tuple never equals an enum member.
   */
  function PairEqualsGood(c: Checked): (b: bool)
    ensures !b
  {
    Pair(c) == Member(GOOD)
  }

  /** A step whose check is GOOD, e.g. AddReadme: the intended test passes, the written one does not. */
  lemma CheckAsWrittenRejectsGood(s: Server, repo: Handle)
    ensures CheckOutcome(AddReadme, s, repo) == Success(Checked(GOOD, ""))
    ensures !PairEqualsGood(CheckOutcome(AddReadme, s, repo).value)
  {
  }

  const UnrecoverableMessage := "Unrecoverable Error Occured!"

  class Session {
    const user: string
    const lesson: Module
    const hub: Hub
    const repoName: string
    const repo: Handle
    var currentStep: int
    var toast: Option<string>   // None until the first `next()`
    var text: Option<string>    // None until a step is entered

    /** The cursor stays within the module; it equals the length only after `next()` ran off the end. */
    ghost predicate Valid()
      reads this
    {
      0 <= currentStep <= |lesson.steps|
    }

    constructor Init(hub: Hub, user: string, lesson: Module, repoName: string, repo: Handle, currentStep: int)
      ensures this.hub == hub && this.user == user && this.lesson == lesson
      ensures this.repoName == repoName && this.repo == repo && this.currentStep == currentStep
      ensures toast.None? && text.None?
    {
      this.hub := hub;
      this.user := user;
      this.lesson := lesson;
      this.repoName := repoName;
      this.repo := repo;
      this.currentStep := currentStep;
      toast := None;
      text := None;
    }

    /**
     * `Session(github, user, org_name, module, repo_name, current_step)`:
     * rejects a cursor outside `0 <= current_step < len(module) - 1`; with
     * no repository name provisions a fresh repository, otherwise fetches
     * "org_name/repo_name". No step's action runs.
     */
    static method Start(hub: Hub, user: string, orgName: string, lesson: Module, repoName: string, currentStep: int,
                        adjective: string, noun: string)
      returns (r: Result<Session, Exc>)
      modifies hub
      ensures !(0 <= currentStep < |lesson.steps| - 1) ==>
        r == Failure(ValueError("Invalid current step")) && hub.server == old(hub.server)
      ensures 0 <= currentStep < |lesson.steps| - 1 && repoName == "" ==>
        var out := lesson.initializer.Outcome(old(hub.server), adjective, noun);
        && hub.server == Apply(old(hub.server), out)
        && (out.Failure? ==> r == Failure(Github(out.error)))
        && (out.Success? ==> r.Success? && r.value.repo == Handle(lesson.initializer.org, RepoName(adjective, noun))
                             && r.value.repoName == r.value.repo.name)
      ensures 0 <= currentStep < |lesson.steps| - 1 && repoName != "" ==>
        var fetched := Fetch(old(hub.server), FullName(orgName, repoName));
        && hub.server == old(hub.server)
        && (fetched.Failure? ==> r == Failure(Github(fetched.error)))
        && (fetched.Success? ==> r.Success? && r.value.repo == fetched.value && r.value.repoName == repoName)
      ensures r.Success? ==>
        && fresh(r.value) && r.value.Valid()
        && r.value.hub == hub && r.value.user == user && r.value.lesson == lesson
        && r.value.currentStep == currentStep && r.value.toast.None? && r.value.text.None?
    {
      if !(0 <= currentStep < |lesson.steps| - 1) {
        return Failure(ValueError("Invalid current step"));
      }
      if repoName == "" {
        var made := lesson.Create(hub, adjective, noun);
        if made.Failure? {
          return Failure(made.error);
        }
        var session := new Session.Init(hub, user, lesson, made.value.name, made.value, currentStep);
        r := Success(session);
      } else {
        var fetched := Fetch(hub.server, FullName(orgName, repoName));
        if fetched.Failure? {
          return Failure(Github(fetched.error));
        }
        var session := new Session.Init(hub, user, lesson, repoName, fetched.value, currentStep);
        r := Success(session);
      }
    }

    /** `instructions()`: the current step's text. */
    function Instructions(): (r: Result<string, Exc>)
      reads this
      requires Valid()
      ensures currentStep < |lesson.steps| ==> r == Success(InstructionsOf(lesson.steps[currentStep], repo))
      ensures currentStep == |lesson.steps| ==> r == Failure(IndexError(ListIndexMessage))
    {
      match lesson.Get(IntKey(currentStep))
      case Success(step) => Success(InstructionsOf(step, repo))
      case Failure(e) => Failure(e)
    }

    /** What the current step's check answers now, or the IndexError of reading past the last step. */
    function Outcome(): Result<Checked, Exc>
      reads this, hub, AllObjects(lesson.steps)
      requires Valid()
    {
      if currentStep < |lesson.steps| then
        ObjectsOfStep(lesson.steps, currentStep);
        Lift(CheckOutcome(lesson.steps[currentStep], hub.server, repo))
      else Failure(IndexError(ListIndexMessage))
    }

    /**
     * `check()` as written: runs the current step's check and compares the
     * returned pair with GOOD, which is never true.
     */
    method Check() returns (r: Result<bool, Exc>)
      requires Valid()
      modifies AllObjects(lesson.steps)
      ensures old(Outcome()).Failure? ==> r == Failure(old(Outcome()).error)
      ensures old(Outcome()).Success? ==> r == Success(PairEqualsGood(old(Outcome()).value))
      ensures r != Success(true)
      ensures currentStep < |lesson.steps| ==>
        unchanged(AllObjects(lesson.steps) - Objects(lesson.steps[currentStep]))
      ensures currentStep == |lesson.steps| ==> unchanged(AllObjects(lesson.steps))
      ensures currentStep < |lesson.steps| && lesson.steps[currentStep].NoConflict? ==>
        var p := lesson.steps[currentStep].noConflict;
        p.previousCommit == old(PushLesson.Observed(PushLesson.NoConflictWatch, p.previousCommit, repo.name, Commits(hub.server, repo)).1)
      ensures currentStep < |lesson.steps| && lesson.steps[currentStep].AfterUpdate? ==>
        var p := lesson.steps[currentStep].afterUpdate;
        p.previousCommit == old(PushLesson.Observed(PushLesson.AfterUpdateWatch, p.previousCommit, repo.name, Commits(hub.server, repo)).1)
    {
      var got := lesson.Get(IntKey(currentStep));
      match got
      case Failure(e) => r := Failure(e);
      case Success(step) =>
        ObjectsOfStep(lesson.steps, currentStep);
        var out := CheckStep(step, hub, repo);
        r := if out.Failure? then Failure(Github(out.error)) else Success(PairEqualsGood(out.value));
    }

    /** The check as evidently intended: true exactly when the current step's check is GOOD. */
    method Passes() returns (r: Result<bool, Exc>)
      requires Valid()
      modifies AllObjects(lesson.steps)
      ensures old(Outcome()).Failure? ==> r == Failure(old(Outcome()).error)
      ensures old(Outcome()).Success? ==> r == Success(old(Outcome()).value.result == GOOD)
      ensures currentStep < |lesson.steps| ==>
        unchanged(AllObjects(lesson.steps) - Objects(lesson.steps[currentStep]))
      ensures currentStep == |lesson.steps| ==> unchanged(AllObjects(lesson.steps))
      ensures currentStep < |lesson.steps| && lesson.steps[currentStep].NoConflict? ==>
        var p := lesson.steps[currentStep].noConflict;
        p.previousCommit == old(PushLesson.Observed(PushLesson.NoConflictWatch, p.previousCommit, repo.name, Commits(hub.server, repo)).1)
      ensures currentStep < |lesson.steps| && lesson.steps[currentStep].AfterUpdate? ==>
        var p := lesson.steps[currentStep].afterUpdate;
        p.previousCommit == old(PushLesson.Observed(PushLesson.AfterUpdateWatch, p.previousCommit, repo.name, Commits(hub.server, repo)).1)
    {
      var got := lesson.Get(IntKey(currentStep));
      match got
      case Failure(e) => r := Failure(e);
      case Success(step) =>
        ObjectsOfStep(lesson.steps, currentStep);
        var out := CheckStep(step, hub, repo);
        r := if out.Failure? then Failure(Github(out.error)) else Success(out.value.result == GOOD);
    }

    /**
     * `next()`: runs the current step's check and keeps its message as the
     * toast. GOOD moves the cursor one step, runs the new step's action and
     * shows its instructions; USER_ERROR and RECOVERABLE stay; UNRECOVERABLE
     * raises. On the last step a GOOD check moves the cursor past the end and
     * then fails to read the step there.
     */
    method Next(words: seq<string>) returns (r: Result<bool, Exc>)
      requires Valid()
      modifies this`currentStep, this`toast, this`text, hub, AllObjects(lesson.steps)
      ensures Valid()
      ensures currentStep == CursorAfterNext(old(currentStep), |lesson.steps|, old(Outcome()))
      ensures old(currentStep) == |lesson.steps| ==> unchanged(AllObjects(lesson.steps))
      ensures old(currentStep) + 1 == |lesson.steps| ==>
        unchanged(AllObjects(lesson.steps) - Objects(lesson.steps[old(currentStep)]))
      ensures old(currentStep) + 1 < |lesson.steps| ==>
        unchanged(AllObjects(lesson.steps) - Objects(lesson.steps[old(currentStep)]) - Objects(lesson.steps[old(currentStep) + 1]))
      ensures var out := old(Outcome());
        && (out.Failure? ==> r == Failure(out.error) && toast == old(toast) && text == old(text) && hub.server == old(hub.server))
        && (out.Success? ==> toast == Some(out.value.message))
        && (out.Success? && (out.value.result == USER_ERROR || out.value.result == RECOVERABLE) ==>
              r == Success(false) && text == old(text) && hub.server == old(hub.server))
        && (out.Success? && out.value.result == UNRECOVERABLE ==>
              r == Failure(Raised(UnrecoverableMessage)) && text == old(text) && hub.server == old(hub.server))
        && (out.Success? && out.value.result == GOOD && old(currentStep) + 1 == |lesson.steps| ==>
              r == Failure(IndexError(ListIndexMessage)) && text == old(text) && hub.server == old(hub.server))
      ensures var out := old(Outcome());
        out.Success? && out.value.result == GOOD && old(currentStep) + 1 < |lesson.steps| ==>
          var effect := ActEffect(lesson.steps[old(currentStep) + 1], old(hub.server), repo, words);
          && hub.server == effect.0
          && (effect.1.Failure? ==> r == Failure(Github(effect.1.error)) && text == old(text))
          && (effect.1.Success? ==> r == Success(true) && text == Some(InstructionsOf(lesson.steps[old(currentStep) + 1], repo)))
    {
      var got := lesson.Get(IntKey(currentStep));
      if got.Failure? {
        return Failure(got.error);
      }
      var step := got.value;
      ObjectsOfStep(lesson.steps, currentStep);
      var checked := CheckStep(step, hub, repo);
      if checked.Failure? {
        return Failure(Github(checked.error));
      }
      toast := Some(checked.value.message);
      match checked.value.result
      case GOOD =>
        currentStep := currentStep + 1;
        var entered := lesson.Get(IntKey(currentStep));
        if entered.Failure? {
          return Failure(entered.error);
        }
        ObjectsOfStep(lesson.steps, currentStep);
        var acted := ActStep(entered.value, hub, repo, words);
        if acted.Failure? {
          return Failure(Github(acted.error));
        }
        text := Some(InstructionsOf(entered.value, repo));
        r := Success(true);
      case USER_ERROR =>
        r := Success(false);
      case RECOVERABLE =>
        r := Success(false);
      case UNRECOVERABLE =>
        r := Failure(Raised(UnrecoverableMessage));
    }

    /** `cleanup()`: deletes the session's repository. */
    method Cleanup() returns (r: Result<(), Exc>)
      modifies hub
      ensures hub.server == Apply(old(hub.server), Remove(old(hub.server), repo))
      ensures Remove(old(hub.server), repo).Success? ==> r == Success(())
      ensures Remove(old(hub.server), repo).Failure? ==> r == Failure(Github(Remove(old(hub.server), repo).error))
    {
      var deleted := hub.Delete(repo);
      r := if deleted.Success? then Success(()) else Failure(Github(deleted.error));
    }
  }
}
