/**
 * The steps of the dictionary-driven engine (modules/create_repo.py) and
 * their common base `GithubStep` (modules/defs.py). Each step reads and
 * returns a `StepData` dictionary; a step caches the repository it works on.
 */
module RepoSteps {
  import opened Wrappers
  import opened GitHub
  import opened Core
  import opened Errors
  import BasicLesson
  import Runtime

  /** A value stored in step data: a string or a repository object. */
  datatype Value = Text(text: string) | Repo(handle: Handle)

  type StepData = map<string, Value>

  /** The concrete step classes; the creating ones fix the repository name when built. */
  datatype Kind =
    | CreateRepo(name: string)
    | CreateRepoFromTemplate(name: string, template: Handle)
    | AddReadme
    | AddRandomFile
  {
    predicate Creates() {
      CreateRepo? || CreateRepoFromTemplate?
    }
  }

  const RepoNameKey := "repo_name"
  const RepoUrlKey := "repo_url"
  const RepoKey := "repo"

  const NotCreated := "Repository not created"

  function WentWrong(e: Exc): string {
    "something went wrong, " + Describe(e)
  }

  /** `str(repo)` for a repository object, as the client prints it. */
  function RepoText(h: Handle): string {
    "Repository(full_name=\"" + Key(h) + "\")"
  }

  /** The error of calling a repository method on a string stored where a repository was expected. */
  function NotARepository(attribute: string): Exc {
    AttributeError("'str' object has no attribute '" + attribute + "'")
  }

  /** The random file AddRandomFile commits: `<word>.txt` holding the words one per line. */
  function RandomFile(word: string, words: seq<string>): FileWrite {
    FileWrite(word + ".txt", "Add random words", Runtime.JoinLines(words))
  }

  /**
   * `get_repo(data)`: the cached repository if there is one; else
   * `data["repo"]`; else the organisation's repository named
   * `data["repo_name"]` (KeyError when that key is missing too).
   */
  function Resolve(cached: Option<Value>, data: StepData, s: Server, org: string): (r: Result<Value, Exc>)
    ensures cached.Some? ==> r == Success(cached.value)
    ensures cached.None? && RepoKey in data ==> r == Success(data[RepoKey])
    ensures cached.None? && RepoKey !in data && RepoNameKey !in data ==> r == Failure(KeyError(RepoNameKey))
    ensures cached.None? && RepoKey !in data && RepoNameKey in data && data[RepoNameKey].Text? ==>
      var fetched := Fetch(s, FullName(org, data[RepoNameKey].text));
      && (fetched.Success? ==> r == Success(Repo(fetched.value)))
      && (fetched.Failure? ==> r == Failure(Github(fetched.error)))
  {
    if cached.Some? then Success(cached.value)
    else if RepoKey in data then Success(data[RepoKey])
    else if RepoNameKey !in data then Failure(KeyError(RepoNameKey))
    else match data[RepoNameKey]
      case Repo(h) => Failure(AssertionError(RepoText(h)))
      case Text(name) =>
        match Fetch(s, FullName(org, name))
        case Success(h) => Success(Repo(h))
        case Failure(e) => Failure(Github(e))
  }

  /** The cache after `get_repo`: set on success, untouched on failure. */
  function CacheAfter(cached: Option<Value>, resolved: Result<Value, Exc>): (c: Option<Value>)
    ensures cached.Some? && resolved == Success(cached.value) ==> c == cached
  {
    if resolved.Success? then Some(resolved.value) else cached
  }

  /** The data a creating step returns: the input plus the new repository's name, API address and object. */
  function WithRepo(data: StepData, name: string, h: Handle): (r: StepData)
    ensures r.Keys == data.Keys + {RepoNameKey, RepoUrlKey, RepoKey}
    ensures r[RepoNameKey] == Text(name) && r[RepoUrlKey] == Text(ApiUrl(h)) && r[RepoKey] == Repo(h)
    ensures forall k :: k in data && k != RepoNameKey && k != RepoUrlKey && k != RepoKey ==> r[k] == data[k]
  {
    data[RepoNameKey := Text(name)][RepoUrlKey := Text(ApiUrl(h))][RepoKey := Repo(h)]
  }

  /** A file write on the step's repository value: a string there has no `create_file`. */
  function WriteOn(v: Value, s: Server, w: FileWrite): (Server, Result<(), Exc>) {
    match v
    case Text(_) => (s, Failure(NotARepository("create_file")))
    case Repo(h) =>
      match PutFile(s, h, w)
      case Success(s') => (s', Success(()))
      case Failure(e) => (s, Failure(Github(e)))
  }

  /**
   * What `act(data)` does: the server afterwards, the returned data (or
   * the exception), and the step's repository cache afterwards.
   */
  function ActEffect(kind: Kind, cached: Option<Value>, data: StepData, s: Server, org: string, word: string, words: seq<string>)
    : (out: (Server, Result<StepData, Exc>, Option<Value>))
    ensures out.1.Failure? ==> out.0 == s
    ensures kind.CreateRepo? ==> (out.1.Success? <==> NewRepo(s, org, kind.name).Success?)
    ensures kind.CreateRepoFromTemplate? ==> (out.1.Success? <==> NewRepoFromTemplate(s, org, kind.name, kind.template).Success?)
    ensures kind.Creates() && out.1.Success? ==>
      && out.1.value == WithRepo(data, kind.name, Handle(org, kind.name))
      && out.2 == Some(Repo(Handle(org, kind.name)))
      && FullName(org, kind.name) in out.0.repos
    ensures !kind.Creates() && out.1.Success? ==> out.1.value == data
    ensures !kind.Creates() ==> out.2 == CacheAfter(cached, Resolve(cached, data, s, org))
  {
    match kind
    case CreateRepo(name) =>
      (match NewRepo(s, org, name)
       case Failure(e) => (s, Failure(Github(e)), cached)
       case Success(s') => (s', Success(WithRepo(data, name, Handle(org, name))), Some(Repo(Handle(org, name)))))
    case CreateRepoFromTemplate(name, template) =>
      (match NewRepoFromTemplate(s, org, name, template)
       case Failure(e) => (s, Failure(Github(e)), cached)
       case Success(s') => (s', Success(WithRepo(data, name, Handle(org, name))), Some(Repo(Handle(org, name)))))
    case AddReadme =>
      (match Resolve(cached, data, s, org)
       case Failure(e) => (s, Failure(e), cached)
       case Success(v) =>
         var written := WriteOn(v, s, BasicLesson.ReadmeWrite);
         (written.0, if written.1.Success? then Success(data) else Failure(written.1.error), Some(v)))
    case AddRandomFile =>
      match Resolve(cached, data, s, org)
      case Failure(e) => (s, Failure(e), cached)
      case Success(v) =>
        var written := WriteOn(v, s, RandomFile(word, words));
        (written.0, if written.1.Success? then Success(data) else Failure(written.1.error), Some(v))
  }

  /** What `check(data)` answers, and the repository cache afterwards. */
  function CheckOutcome(kind: Kind, cached: Option<Value>, data: StepData, s: Server, org: string)
    : (out: (Result<(bool, string), Exc>, Option<Value>))
    ensures kind.Creates() ==> out.1 == cached && out.0.Success?
    ensures kind.Creates() ==>
      var fetched := Fetch(s, FullName(org, kind.name));
      && (out.0.value.0 <==> fetched.Success?)
      && (out.0.value.0 ==> out.0.value.1 == "")
      && (fetched.Failure? && fetched.error.status == 404 ==> out.0.value.1 == NotCreated)
      && (fetched.Failure? && fetched.error.status != 404 ==> out.0.value.1 == WentWrong(Github(fetched.error)))
    ensures !kind.Creates() ==> out.1 == CacheAfter(cached, Resolve(cached, data, s, org))
    ensures !kind.Creates() ==> (out.0.Failure? <==> Resolve(cached, data, s, org).Failure?)
    ensures kind.AddRandomFile? && out.0.Success? ==> out.0.value == (true, "")
    ensures kind.AddReadme? && out.0.Success? ==>
      (out.0.value.0 <==> Resolve(cached, data, s, org).value.Repo? && Readme(s, Resolve(cached, data, s, org).value.handle).Success?)
    ensures kind.AddReadme? && out.0.Success? ==>
      var v := Resolve(cached, data, s, org).value;
      && (out.0.value.0 ==> out.0.value.1 == "")
      && (v.Text? ==> out.0.value.1 == WentWrong(NotARepository("get_readme")))
      && (v.Repo? && Readme(s, v.handle).Failure? ==> out.0.value.1 == WentWrong(Github(Readme(s, v.handle).error)))
  {
    match kind
    case CreateRepo(name) => (Probe(s, org, name), cached)
    case CreateRepoFromTemplate(name, _) => (Probe(s, org, name), cached)
    case AddReadme =>
      (match Resolve(cached, data, s, org)
       case Failure(e) => (Failure(e), cached)
       case Success(v) => (Success(ReadmeAnswer(v, s)), Some(v)))
    case AddRandomFile =>
      match Resolve(cached, data, s, org)
      case Failure(e) => (Failure(e), cached)
      case Success(v) => (Success((true, "")), Some(v))
  }

  /** AddReadme's check once the repository is known: a failed README lookup is caught and reported. */
  function ReadmeAnswer(v: Value, s: Server): (bool, string) {
    match v
    case Text(_) => (false, WentWrong(NotARepository("get_readme")))
    case Repo(h) => if Readme(s, h).Success? then (true, "") else (false, WentWrong(Github(Readme(s, h).error)))
  }

  /** The creating steps' check: look the repository up by name, never raising. */
  function Probe(s: Server, org: string, name: string): Result<(bool, string), Exc> {
    match Fetch(s, FullName(org, name))
    case Success(_) => Success((true, ""))
    case Failure(e) => Success((false, if e.status == 404 then NotCreated else WentWrong(Github(e))))
  }

  /**
   * A creating step's check agrees with its action: right after the
   * repository was created, the check finds it.
   */
  lemma CreatedThenFound(kind: Kind, cached: Option<Value>, data: StepData, s: Server, org: string, word: string, words: seq<string>)
    requires kind.Creates() && Valid(s)
    requires ActEffect(kind, cached, data, s, org, word, words).1.Success?
    ensures CheckOutcome(kind, cached, data, ActEffect(kind, cached, data, s, org, word, words).0, org).0 == Success((true, ""))
  {
    var s' := ActEffect(kind, cached, data, s, org, word, words).0;
    assert Organization(s, org).Success?;
    assert s'.outage == s.outage;
  }

  /** AddReadme's check agrees with its action: once the README is committed, the check passes. */
  lemma ReadmeThenFound(cached: Option<Value>, data: StepData, s: Server, org: string, word: string, words: seq<string>)
    requires ActEffect(AddReadme, cached, data, s, org, word, words).1.Success?
    ensures var after := ActEffect(AddReadme, cached, data, s, org, word, words);
      CheckOutcome(AddReadme, after.2, data, after.0, org).0 == Success((true, ""))
  {
    var v := Resolve(cached, data, s, org).value;
    var s' := PutFile(s, v.handle, BasicLesson.ReadmeWrite).value;
    assert Key(v.handle) in s'.repos && ReadmePath in s'.repos[Key(v.handle)].files;
    assert Locate(s', Key(v.handle)).Success?;
  }

  /** `output(data)`: a creating step shows the stored repository address, the others nothing. */
  function Output(kind: Kind, data: StepData): (r: Value)
    ensures kind.Creates() && RepoUrlKey in data ==> r == data[RepoUrlKey]
    ensures !(kind.Creates() && RepoUrlKey in data) ==> r == Text("")
  {
    if kind.Creates() && RepoUrlKey in data then data[RepoUrlKey] else Text("")
  }

  /** After a successful creating action, the output is the new repository's API address. */
  lemma OutputAfterCreate(kind: Kind, cached: Option<Value>, data: StepData, s: Server, org: string, word: string, words: seq<string>)
    requires kind.Creates() && ActEffect(kind, cached, data, s, org, word, words).1.Success?
    ensures Output(kind, ActEffect(kind, cached, data, s, org, word, words).1.value) == Text(ApiUrl(Handle(org, kind.name)))
  {
  }

  /** One step object: its client, its organisation, its class and its cached repository. */
  class GithubStep {
    const hub: Hub
    const org: string
    const kind: Kind
    var repo: Option<Value>   // the `repo` attribute, absent until first set

    constructor Init(hub: Hub, org: string, kind: Kind)
      ensures this.hub == hub && this.org == org && this.kind == kind && repo.None?
    {
      this.hub := hub;
      this.org := org;
      this.kind := kind;
      repo := None;
    }

    /** `GithubStep.__init__`: looks the organisation up, which raises when it is not there. */
    static method Open(hub: Hub, orgName: string, kind: Kind) returns (r: Result<GithubStep, Exc>)
      ensures Organization(hub.server, orgName).Failure? ==> r == Failure(Github(Organization(hub.server, orgName).error))
      ensures Organization(hub.server, orgName).Success? ==>
        r.Success? && fresh(r.value) && r.value.hub == hub && r.value.org == orgName && r.value.kind == kind && r.value.repo.None?
    {
      var found := Organization(hub.server, orgName);
      if found.Failure? {
        return Failure(Github(found.error));
      }
      var step := new GithubStep.Init(hub, found.value, kind);
      r := Success(step);
    }

    /** `get_repo(data)`: once set, the cached repository never changes through it. */
    method GetRepo(data: StepData) returns (r: Result<Value, Exc>)
      modifies this
      ensures r == Resolve(old(repo), data, hub.server, org)
      ensures repo == CacheAfter(old(repo), r)
    {
      r := Resolve(repo, data, hub.server, org);
      repo := CacheAfter(repo, r);
    }

    /** `act(data)`: returns new data and leaves the input untouched (a value here). */
    method Act(data: StepData, word: string, words: seq<string>) returns (r: Result<StepData, Exc>)
      modifies this, hub
      ensures (hub.server, r, repo) == ActEffect(kind, old(repo), data, old(hub.server), org, word, words)
    {
      match kind
      case CreateRepo(name) =>
        var made := hub.CreateRepo(org, name);
        if made.Failure? {
          return Failure(Github(made.error));
        }
        repo := Some(Repo(made.value));
        r := Success(WithRepo(data, name, made.value));
      case CreateRepoFromTemplate(name, template) =>
        var made := hub.CreateRepoFromTemplate(org, name, template);
        if made.Failure? {
          return Failure(Github(made.error));
        }
        repo := Some(Repo(made.value));
        r := Success(WithRepo(data, name, made.value));
      case AddReadme =>
        var got := GetRepo(data);
        if got.Failure? {
          return Failure(got.error);
        }
        r := Write(got.value, data, BasicLesson.ReadmeWrite);
      case AddRandomFile =>
        var got := GetRepo(data);
        if got.Failure? {
          return Failure(got.error);
        }
        r := Write(got.value, data, RandomFile(word, words));
    }

    /** The `create_file` call of AddReadme and AddRandomFile, returning the data it was given. */
    method Write(v: Value, data: StepData, w: FileWrite) returns (r: Result<StepData, Exc>)
      modifies hub
      ensures hub.server == WriteOn(v, old(hub.server), w).0
      ensures r == (if WriteOn(v, old(hub.server), w).1.Success? then Success(data) else Failure(WriteOn(v, old(hub.server), w).1.error))
    {
      if v.Text? {
        return Failure(NotARepository("create_file"));
      }
      var put := hub.CreateFile(v.handle, w);
      r := if put.Success? then Success(data) else Failure(Github(put.error));
    }

    /** `check(data)`. */
    method Check(data: StepData) returns (r: Result<(bool, string), Exc>)
      modifies this
      ensures (r, repo) == CheckOutcome(kind, old(repo), data, hub.server, org)
    {
      if kind.Creates() {
        return Probe(hub.server, org, kind.name);
      }
      var got := GetRepo(data);
      if got.Failure? {
        return Failure(got.error);
      }
      if kind.AddRandomFile? {
        return Success((true, ""));
      }
      if got.value.Text? {
        return Success((false, WentWrong(NotARepository("get_readme"))));
      }
      var found := Readme(hub.server, got.value.handle);
      r := if found.Success? then Success((true, "")) else Success((false, WentWrong(Github(found.error))));
    }
  }
}
