/**
 * The dictionary-driven engine (modules/defs.py): a module keeps the
 * index of its current step, a data dictionary the steps' actions merge
 * into, and whether the current step's check last passed.
 */
module DefsEngine {
  import opened Wrappers
  import opened Errors
  import opened Runtime
  import opened RepoSteps

  /** `self.data.update(returned)`: returned keys overwrite, every other key is kept. */
  function Merge(d: StepData, returned: StepData): (r: StepData)
    ensures r.Keys == d.Keys + returned.Keys
    ensures forall k :: k in returned ==> r[k] == returned[k]
    ensures forall k :: k in d && k !in returned ==> r[k] == d[k]
  {
    d + returned
  }

  /** The step index after `next()`: one further exactly when the step was done and is not the last. */
  function Advanced(step: int, done: bool, len: nat): (r: int)
    ensures r == step || r == step + 1
    ensures r == step + 1 <==> done && step + 1 < len
  {
    if done && step + 1 < len then step + 1 else step
  }

  /** The step index after a run of `next()` calls, given whether each found its step done. */
  function Run(step: int, len: nat, done: seq<bool>): int
    decreases |done|
  {
    if done == [] then step else Run(Advanced(step, done[0], len), len, done[1..])
  }

  function Max(a: int, b: int): int {
    if a >= b then a else b
  }

  /**
   * However often `next()` runs, the index never moves back and never goes
   * beyond the last step (or beyond where it started, when that was
   * already past the end).
   */
  lemma {:induction false} RunBounded(step: int, len: nat, done: seq<bool>)
    ensures step <= Run(step, len, done) <= Max(step, len - 1)
    decreases |done|
  {
    if done != [] {
      RunBounded(Advanced(step, done[0], len), len, done[1..]);
    }
  }

  /** The IndexError text of `module[index]`. */
  function StepIndexMessage(index: int, len: nat): string {
    "No step with index " + IntText(index) + " from module with " + Decimal(len) + " steps"
  }

  const NoStepDone := "'Module' object has no attribute 'step_done'"

  class Module {
    const name: string
    const steps: seq<GithubStep>
    var step: int
    var data: StepData
    var stepDone: Option<bool>   // the `step_done` attribute, absent until `can_continue()`

    /** The step objects, whose repository caches the module's calls update. */
    function Objects(): set<GithubStep> {
      set i | 0 <= i < |steps| :: steps[i]
    }

    /** The clients the steps write through. */
    function Hubs(): set<GitHub.Hub> {
      set i | 0 <= i < |steps| :: steps[i].hub
    }

    /** `Module(name, steps, init_data, init_step)`: the index is taken as given, unchecked. */
    constructor (name: string, steps: seq<GithubStep>, initData: Option<StepData>, initStep: int)
      ensures this.name == name && this.steps == steps && step == initStep
      ensures data == initData.GetOr(map[]) && stepDone.None?
    {
      this.name := name;
      this.steps := steps;
      step := initStep;
      data := initData.GetOr(map[]);
      stepDone := None;
    }

    /** `progress`: the current index and the number of steps. */
    function Progress(): (r: (int, int))
      reads this
      ensures r.0 == step && r.1 == |steps|
    {
      (step, |steps|)
    }

    function Length(): (n: nat)
      ensures n == |steps|
    {
      |steps|
    }

    /** `module[index]`: ValueError for a non-integer key; unlike a list, IndexError for any index outside `[0, len)`. */
    function Get(key: Key): (r: Result<GithubStep, Exc>)
      ensures r.Success? <==> key.IntKey? && 0 <= key.i < |steps|
      ensures r.Success? ==> r.value == steps[key.i]
      ensures key.OtherKey? ==> r == Failure(ValueError("Expected integer index, recieved <class '" + key.typeName + "'>"))
      ensures key.IntKey? && !(0 <= key.i < |steps|) ==> r == Failure(IndexError(StepIndexMessage(key.i, |steps|)))
    {
      match key
      case OtherKey(t) => Failure(ValueError("Expected integer index, recieved <class '" + t + "'>"))
      case IntKey(i) =>
        if 0 <= i < |steps| then Success(steps[i]) else Failure(IndexError(StepIndexMessage(i, |steps|)))
    }

    /** `act()`: runs the current step's action on the module's data and merges what it returns into the data. */
    method Act(word: string, words: seq<string>) returns (r: Result<(), Exc>)
      modifies this`data, Objects(), Hubs()
      ensures !(0 <= step < |steps|) ==> r == Failure(IndexError(StepIndexMessage(step, |steps|))) && data == old(data)
      ensures 0 <= step < |steps| ==>
        var current := steps[step];
        var effect := ActEffect(current.kind, old(current.repo), old(data), old(current.hub.server), current.org, word, words);
        && current.hub.server == effect.0
        && current.repo == effect.2
        && (effect.1.Failure? ==> r == Failure(effect.1.error) && data == old(data))
        && (effect.1.Success? ==> r == Success(()) && data == Merge(old(data), effect.1.value))
      ensures 0 <= step < |steps| ==> unchanged(Objects() - {steps[step]}) && unchanged(Hubs() - {steps[step].hub})
      ensures !(0 <= step < |steps|) ==> unchanged(Objects()) && unchanged(Hubs())
    {
      var got := Get(IntKey(step));
      if got.Failure? {
        return Failure(got.error);
      }
      var returned := got.value.Act(data, word, words);
      if returned.Failure? {
        return Failure(returned.error);
      }
      data := Merge(data, returned.value);
      r := Success(());
    }

    /** `can_continue()`: runs the current step's check and records its verdict in `step_done`. */
    method CanContinue() returns (r: Result<bool, Exc>)
      modifies this`stepDone, Objects()
      ensures !(0 <= step < |steps|) ==> r == Failure(IndexError(StepIndexMessage(step, |steps|))) && stepDone == old(stepDone)
      ensures 0 <= step < |steps| ==>
        var current := steps[step];
        var out := CheckOutcome(current.kind, old(current.repo), data, current.hub.server, current.org);
        && current.repo == out.1
        && (out.0.Failure? ==> r == Failure(out.0.error) && stepDone == old(stepDone))
        && (out.0.Success? ==> r == Success(out.0.value.0) && stepDone == Some(out.0.value.0))
      ensures 0 <= step < |steps| ==> unchanged(Objects() - {steps[step]})
      ensures !(0 <= step < |steps|) ==> unchanged(Objects())
    {
      var got := Get(IntKey(step));
      if got.Failure? {
        return Failure(got.error);
      }
      var checked := got.value.Check(data);
      if checked.Failure? {
        return Failure(checked.error);
      }
      stepDone := Some(checked.value.0);
      r := Success(checked.value.0);
    }

    /**
     * `next()`: needs an earlier `can_continue()`; moves one step on, and
     * clears `step_done`, exactly when the step is done and is not the last.
     */
    method Next() returns (r: Result<bool, Exc>)
      modifies this`step, this`stepDone
      ensures old(stepDone).None? ==> r == Failure(AttributeError(NoStepDone)) && step == old(step) && stepDone.None?
      ensures old(stepDone).Some? ==>
        && step == Advanced(old(step), old(stepDone).value, |steps|)
        && r == Success(step != old(step))
        && stepDone == (if step != old(step) then Some(false) else old(stepDone))
    {
      if stepDone.None? {
        return Failure(AttributeError(NoStepDone));
      }
      if stepDone.value && step + 1 < |steps| {
        step := step + 1;
        stepDone := Some(false);
        return Success(true);
      }
      r := Success(false);
    }
  }
}

/** `test_module` (modules/create_repo.py): a three-step module, resumable only with a repository name. */
module TestModule {
  import opened Wrappers
  import opened GitHub
  import opened Core
  import opened Errors
  import opened RepoSteps
  import DefsEngine

  const NeedRepository := "Need repository url if not starting from the beginning"

  /** The data a test module starts with: the repository name when one is given. */
  function InitialData(repo: string): (d: StepData)
    ensures repo != "" <==> RepoNameKey in d
    ensures repo != "" ==> d == map[RepoNameKey := Text(repo)]
    ensures repo == "" ==> d == map[]
  {
    if repo != "" then map[RepoNameKey := Text(repo)] else map[]
  }

  /**
   * `test_module(github, org_name, current_step, repo)`: refuses to start
   * past the first step without a repository; otherwise builds
   * CreateRepo("adjective-noun"), AddReadme and AddRandomFile under the
   * organisation, starting at `current_step`.
   */
  method Build(hub: Hub, orgName: string, currentStep: int, repo: string, adjective: string, noun: string)
    returns (r: Result<DefsEngine.Module, Exc>)
    ensures currentStep != 0 && repo == "" ==> r == Failure(ValueError(NeedRepository))
    ensures !(currentStep != 0 && repo == "") && Organization(hub.server, orgName).Failure? ==>
      r == Failure(Github(Organization(hub.server, orgName).error))
    ensures !(currentStep != 0 && repo == "") && Organization(hub.server, orgName).Success? ==>
      && r.Success? && fresh(r.value)
      && r.value.name == "test_module"
      && |r.value.steps| == 3
      && r.value.steps[0].kind == CreateRepo(RepoName(adjective, noun))
      && r.value.steps[1].kind == AddReadme
      && r.value.steps[2].kind == AddRandomFile
      && (forall i :: 0 <= i < 3 ==>
            fresh(r.value.steps[i]) && r.value.steps[i].hub == hub && r.value.steps[i].org == orgName && r.value.steps[i].repo.None?)
      && r.value.step == currentStep
      && r.value.data == InitialData(repo)
      && r.value.stepDone.None?
  {
    if currentStep != 0 && repo == "" {
      return Failure(ValueError(NeedRepository));
    }
    var create := GithubStep.Open(hub, orgName, CreateRepo(RepoName(adjective, noun)));
    if create.Failure? {
      return Failure(create.error);
    }
    // the same organisation lookup cannot fail for the next two steps
    var readme := GithubStep.Open(hub, orgName, AddReadme);
    var random := GithubStep.Open(hub, orgName, AddRandomFile);
    var m := new DefsEngine.Module("test_module", [create.value, readme.value, random.value], Some(InitialData(repo)), currentStep);
    r := Success(m);
  }
}
