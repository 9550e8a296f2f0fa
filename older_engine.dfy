/**
 * The older step-progression engine (modules/steps.py): checks answer a
 * bare `CheckResult`, a session always fetches an existing repository,
 * and `next()` sets fixed toast strings.
 */
module OlderEngine {
  import opened Wrappers
  import opened GitHub
  import opened Core
  import opened Errors
  import opened Runtime
  /**
   * The three operations of the abstract `Step` class, for a step type `S`:
   * `check` grades the repository, `action` changes it, `instructions`
   * renders the page.
   */
  datatype StepOps<!S> = StepOps(
    check: (S, Server, Handle) -> Result<CheckResult, ApiError>,
    action: (S, Server, Handle) -> (Server, Result<(), ApiError>),
    instructions: S -> string)

  datatype Module<S> = Module(name: string, steps: seq<S>) {

    /** `len(module)`. */
    function Length(): (n: nat)
      ensures n == |steps|
    {
      |steps|
    }

    /** `module[index]`: ValueError for a non-integer key, Python list indexing otherwise. */
    function Get(key: Key): (r: Result<S, Exc>)
      ensures key.OtherKey? ==> r == Failure(ValueError("Expected integer index, recieved <class '" + key.typeName + "'>"))
      ensures key.IntKey? && 0 <= key.i < |steps| ==> r == Success(steps[key.i])
      ensures key.IntKey? && -|steps| <= key.i < 0 ==> r == Success(steps[|steps| + key.i])
      ensures key.IntKey? && !(-|steps| <= key.i < |steps|) ==> r == Failure(IndexError(ListIndexMessage))
    {
      match key
      case OtherKey(t) => Failure(ValueError("Expected integer index, recieved <class '" + t + "'>"))
      case IntKey(i) =>
        match ListIndex(steps, i)
        case Success(step) => Success(step)
        case Failure(m) => Failure(IndexError(m))
    }
  }

  /** The name `create_repo` asks the organisation for, as written: the organisation is prefixed. */
  function RequestedName(org: string, adjective: string, noun: string): (r: string)
    ensures r == org + "/" + RepoName(adjective, noun)
    ensures |r| == |org| + 1 + |RepoName(adjective, noun)|
  {
    org + "/" + adjective + "-" + noun
  }

  /** `create_repo(github, org_name)` as written: the new repository is named "org/adjective-noun". */
  method CreateRepo(hub: Hub, org: string, adjective: string, noun: string) returns (r: Result<Handle, Exc>)
    modifies hub
    ensures var out := NewRepo(old(hub.server), org, RequestedName(org, adjective, noun));
      && hub.server == Apply(old(hub.server), out)
      && (out.Success? ==> r == Success(Handle(org, RequestedName(org, adjective, noun))))
      && (out.Failure? ==> r == Failure(Github(out.error)))
  {
    var made := hub.CreateRepo(org, RequestedName(org, adjective, noun));
    r := if made.Success? then Success(made.value) else Failure(Github(made.error));
  }

  /**
   * The repository the older `create_repo` makes is never the one named
   * "adjective-noun" under the organisation, which is what the live
   * engine creates and what a later "org/repo_name" lookup expects.
   */
  lemma RequestedNameMisnames(s: Server, org: string, adjective: string, noun: string)
    requires NewRepo(s, org, RequestedName(org, adjective, noun)).Success?
    ensures RequestedName(org, adjective, noun) != RepoName(adjective, noun)
    ensures FullName(org, RequestedName(org, adjective, noun)) in NewRepo(s, org, RequestedName(org, adjective, noun)).value.repos
    ensures GitHub.Key(Handle(org, RequestedName(org, adjective, noun))) != FullName(org, RepoName(adjective, noun))
  {
    assert |RequestedName(org, adjective, noun)| != |RepoName(adjective, noun)|;
    assert |FullName(org, RequestedName(org, adjective, noun))| != |FullName(org, RepoName(adjective, noun))|;
  }

  const UnrecoverableMessage := "Unrecoverable Error Occured!"
  const UserErrorToast := "you goofed"
  const RecoverableToast := "we goofed, and we're fixing it"
  const UnrecoverableToast := "we REALLY goofed, and we can't fix it!"

  /** The toast `next()` leaves for each check result. */
  function ToastFor(result: CheckResult): (t: string)
    ensures result == GOOD <==> t == ""
    ensures result == USER_ERROR ==> t == UserErrorToast
    ensures result == RECOVERABLE ==> t == RecoverableToast
    ensures result == UNRECOVERABLE ==> t == UnrecoverableToast
  {
    match result
    case GOOD => ""
    case USER_ERROR => UserErrorToast
    case RECOVERABLE => RecoverableToast
    case UNRECOVERABLE => UnrecoverableToast
  }

  /** Where `next()` leaves the cursor: one further exactly when the cursor was on a step whose check was GOOD. */
  function CursorAfterNext(current: int, len: nat, outcome: Result<CheckResult, Exc>): (c: int)
    ensures c == current || c == current + 1
    ensures c == current + 1 <==> current < len && outcome == Success(GOOD)
  {
    if current < len && outcome == Success(GOOD) then current + 1 else current
  }

  class Session<S> {
    const user: string
    const repoName: string
    const lesson: Module<S>
    const ops: StepOps<S>
    const hub: Hub
    const repo: Handle
    var currentStep: int
    var toast: Option<string>   // None until the first `next()` sets it
    var text: Option<string>    // None until a step is entered

    /** The cursor starts above 0 and only moves forward, at most to the length. */
    ghost predicate Valid()
      reads this
    {
      0 < currentStep <= |lesson.steps|
    }

    constructor Init(hub: Hub, user: string, repoName: string, lesson: Module<S>, ops: StepOps<S>, repo: Handle, currentStep: int)
      ensures this.hub == hub && this.user == user && this.repoName == repoName && this.lesson == lesson && this.ops == ops
      ensures this.repo == repo && this.currentStep == currentStep
      ensures toast.None? && text.None?
    {
      this.hub := hub;
      this.user := user;
      this.repoName := repoName;
      this.lesson := lesson;
      this.ops := ops;
      this.repo := repo;
      this.currentStep := currentStep;
      toast := None;
      text := None;
    }

    /**
     * `Session(github, user, repo_name, org_name, module, current_step)`:
     * the cursor must satisfy `0 < current_step < len(module)`, so the
     * default 0 is always refused; the repository is always fetched.
     */
    static method Start(hub: Hub, user: string, repoName: string, orgName: string, lesson: Module<S>, ops: StepOps<S>,
                        currentStep: int)
      returns (r: Result<Session<S>, Exc>)
      ensures !(0 < currentStep < |lesson.steps|) ==> r == Failure(ValueError("Invalid current step"))
      ensures 0 < currentStep < |lesson.steps| ==>
        var fetched := Fetch(hub.server, FullName(orgName, repoName));
        && (fetched.Failure? ==> r == Failure(Github(fetched.error)))
        && (fetched.Success? ==> r.Success? && r.value.repo == fetched.value)
      ensures r.Success? ==>
        && fresh(r.value) && r.value.Valid()
        && r.value.hub == hub && r.value.user == user && r.value.repoName == repoName && r.value.lesson == lesson && r.value.ops == ops
        && r.value.currentStep == currentStep && r.value.toast.None? && r.value.text.None?
    {
      if !(0 < currentStep < |lesson.steps|) {
        return Failure(ValueError("Invalid current step"));
      }
      var fetched := Fetch(hub.server, FullName(orgName, repoName));
      if fetched.Failure? {
        return Failure(Github(fetched.error));
      }
      var session := new Session<S>.Init(hub, user, repoName, lesson, ops, fetched.value, currentStep);
      r := Success(session);
    }

    /** What the current step's check answers, or the IndexError of reading past the last step. */
    function Outcome(): Result<CheckResult, Exc>
      reads this, hub
      requires Valid()
    {
      if currentStep < |lesson.steps| then
        match ops.check(lesson.steps[currentStep], hub.server, repo)
        case Success(c) => Success(c)
        case Failure(e) => Failure(Github(e))
      else Failure(IndexError(ListIndexMessage))
    }

    /** `can_continue()`: true exactly when the current step's check is GOOD. */
    function CanContinue(): (r: Result<bool, Exc>)
      reads this, hub
      requires Valid()
      ensures Outcome().Failure? ==> r == Failure(Outcome().error)
      ensures Outcome().Success? ==> r == Success(Outcome().value == GOOD)
    {
      match lesson.Get(IntKey(currentStep))
      case Failure(e) => Failure(e)
      case Success(step) =>
        match ops.check(step, hub.server, repo)
        case Failure(e) => Failure(Github(e))
        case Success(c) => Success(c == GOOD)
    }

    /**
     * `next()`: GOOD moves the cursor, runs the new step's action, shows its
     * instructions and clears the toast; the other results keep the cursor
     * and set a fixed toast, UNRECOVERABLE then raising. On the last step a
     * GOOD check moves the cursor past the end and the read there fails.
     */
    method Next() returns (r: Result<(), Exc>)
      requires Valid()
      modifies this`currentStep, this`toast, this`text, hub
      ensures Valid()
      ensures currentStep == CursorAfterNext(old(currentStep), |lesson.steps|, old(Outcome()))
      ensures var out := old(Outcome());
        && (out.Failure? ==> r == Failure(out.error) && toast == old(toast) && text == old(text) && hub.server == old(hub.server))
        && (out.Success? && out.value != GOOD ==>
              toast == Some(ToastFor(out.value)) && text == old(text) && hub.server == old(hub.server)
              && r == (if out.value == UNRECOVERABLE then Failure(Raised(UnrecoverableMessage)) else Success(())))
        && (out == Success(GOOD) && old(currentStep) + 1 == |lesson.steps| ==>
              r == Failure(IndexError(ListIndexMessage)) && toast == old(toast) && text == old(text) && hub.server == old(hub.server))
      ensures old(Outcome()) == Success(GOOD) && old(currentStep) + 1 < |lesson.steps| ==>
        var entered := lesson.steps[old(currentStep) + 1];
        var effect := ops.action(entered, old(hub.server), repo);
        && hub.server == effect.0
        && (effect.1.Failure? ==> r == Failure(Github(effect.1.error)) && toast == old(toast) && text == old(text))
        && (effect.1.Success? ==> r == Success(()) && toast == Some("") && text == Some(ops.instructions(entered)))
    {
      var got := lesson.Get(IntKey(currentStep));
      if got.Failure? {
        return Failure(got.error);
      }
      var checked := ops.check(got.value, hub.server, repo);
      if checked.Failure? {
        return Failure(Github(checked.error));
      }
      match checked.value
      case GOOD =>
        currentStep := currentStep + 1;
        var entered := lesson.Get(IntKey(currentStep));
        if entered.Failure? {
          return Failure(entered.error);
        }
        var effect := ops.action(entered.value, hub.server, repo);
        hub.server := effect.0;
        if effect.1.Failure? {
          return Failure(Github(effect.1.error));
        }
        text := Some(ops.instructions(entered.value));
        toast := Some("");
        r := Success(());
      case USER_ERROR =>
        toast := Some(UserErrorToast);
        r := Success(());
      case RECOVERABLE =>
        toast := Some(RecoverableToast);
        r := Success(());
      case UNRECOVERABLE =>
        toast := Some(UnrecoverableToast);
        r := Failure(Raised(UnrecoverableMessage));
    }

    /** `cleanup()`: deletes the session's repository. */
    method Cleanup() returns (r: Result<(), Exc>)
      modifies hub
      ensures hub.server == Apply(old(hub.server), Remove(old(hub.server), repo))
      ensures r == (if Remove(old(hub.server), repo).Success? then Success(()) else Failure(Github(Remove(old(hub.server), repo).error)))
    {
      var deleted := hub.Delete(repo);
      r := if deleted.Success? then Success(()) else Failure(Github(deleted.error));
    }
  }
}
