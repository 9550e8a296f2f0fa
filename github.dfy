/**
 * The hosted GitHub service the engines talk to, reduced to what they use:
 * organisations, repositories addressed by their full name "owner/name",
 * the files of each repository and its commit list (most recent first).
 * Every API call is a function on a `Server` value; the mutable `Hub`
 * object stands for the authenticated client shared by all callers.
 * A commit's sha is taken from a clock, so every new commit gets a sha no
 * earlier commit has.
 */
module GitHub {
  import opened Wrappers

  /** A failed API call: the HTTP status and the response body. */
  datatype ApiError = ApiError(status: int, data: string)

  const NotFound := ApiError(404, "{\"message\": \"Not Found\"}")
  const AlreadyExists := ApiError(422, "{\"message\": \"Unprocessable Entity\"}")
  const EmptyRepository := ApiError(409, "{\"message\": \"Git Repository is empty.\"}")

  datatype Commit = Commit(sha: nat, message: string)

  /** One hosted repository: its owner, its name, file contents by path, commits most recent first. */
  datatype RepoState = RepoState(owner: string, name: string, files: map<string, string>, commits: seq<Commit>)

  /** A repository object as the client hands it out: it remembers owner and name. */
  datatype Handle = Handle(owner: string, name: string)

  /**
   * The whole service: known organisations, repositories by full name, an
   * outage (when set, every call fails with that error) and the sha clock.
   */
  datatype Server = Server(orgs: set<string>, repos: map<string, RepoState>, outage: Option<ApiError>, clock: nat)

  /** One `create_file(path, message, content)` request. */
  datatype FileWrite = FileWrite(path: string, message: string, content: string)

  const ReadmePath := "README.md"

  function FullName(owner: string, name: string): string {
    owner + "/" + name
  }

  function Key(h: Handle): string {
    FullName(h.owner, h.name)
  }

  /** `repo.ssh_url`. */
  function SshUrl(h: Handle): string {
    "git@github.com:" + Key(h) + ".git"
  }

  /** `repo.url`: the API address of the repository. */
  function ApiUrl(h: Handle): string {
    "https://api.github.com/repos/" + Key(h)
  }

  /** Every commit on the server has a sha below the clock. */
  ghost predicate Fresh(s: Server) {
    forall k, i :: k in s.repos && 0 <= i < |s.repos[k].commits| ==> s.repos[k].commits[i].sha < s.clock
  }

  /** Repositories are stored under their own full name, and shas are fresh. */
  ghost predicate Valid(s: Server) {
    && (forall k :: k in s.repos ==> k == FullName(s.repos[k].owner, s.repos[k].name))
    && Fresh(s)
  }

  /** Everything but the repository stored under `key` is as in `s`. */
  ghost predicate OnlyTouches(s: Server, s': Server, key: string) {
    && s'.orgs == s.orgs
    && s'.outage == s.outage
    && (forall k :: k != key ==> (k in s'.repos <==> k in s.repos))
    && (forall k :: k != key && k in s.repos ==> s'.repos[k] == s.repos[k])
  }

  /** The request for one repository by full name. */
  function Locate(s: Server, full: string): (r: Result<RepoState, ApiError>)
    ensures r.Success? <==> s.outage.None? && full in s.repos
    ensures r.Success? ==> r.value == s.repos[full]
    ensures s.outage.Some? ==> r == Failure(s.outage.value)
    ensures s.outage.None? && full !in s.repos ==> r == Failure(NotFound)
  {
    if s.outage.Some? then Failure(s.outage.value)
    else if full !in s.repos then Failure(NotFound)
    else Success(s.repos[full])
  }

  /** `github.get_organization(org)`. */
  function Organization(s: Server, org: string): (r: Result<string, ApiError>)
    ensures r.Success? <==> s.outage.None? && org in s.orgs
    ensures r.Success? ==> r.value == org
  {
    if s.outage.Some? then Failure(s.outage.value)
    else if org !in s.orgs then Failure(NotFound)
    else Success(org)
  }

  /** `github.get_repo(full)`: a handle that names the stored repository. */
  function Fetch(s: Server, full: string): (r: Result<Handle, ApiError>)
    ensures r.Success? <==> Locate(s, full).Success?
    ensures r.Failure? ==> r.error == Locate(s, full).error
    ensures Valid(s) && r.Success? ==> Key(r.value) == full
  {
    match Locate(s, full)
    case Failure(e) => Failure(e)
    case Success(st) => Success(Handle(st.owner, st.name))
  }

  /** `repo.get_commits()` followed by a subscript: an empty repository answers 409. */
  function Commits(s: Server, h: Handle): (r: Result<seq<Commit>, ApiError>)
    ensures r.Success? <==> Locate(s, Key(h)).Success? && |s.repos[Key(h)].commits| > 0
    ensures r.Success? ==> r.value == s.repos[Key(h)].commits && |r.value| > 0
  {
    match Locate(s, Key(h))
    case Failure(e) => Failure(e)
    case Success(st) => if st.commits == [] then Failure(EmptyRepository) else Success(st.commits)
  }

  /** `repo.get_readme()`: the content of README.md, or 404 when there is none. */
  function Readme(s: Server, h: Handle): (r: Result<string, ApiError>)
    ensures r.Success? <==> Locate(s, Key(h)).Success? && ReadmePath in s.repos[Key(h)].files
    ensures Locate(s, Key(h)).Success? && r.Failure? ==> r.error == NotFound
  {
    match Locate(s, Key(h))
    case Failure(e) => Failure(e)
    case Success(st) => if ReadmePath in st.files then Success(st.files[ReadmePath]) else Failure(NotFound)
  }

  /** `github.get_organization(org).create_repo(name)`: an empty repository under `org`. */
  function NewRepo(s: Server, org: string, name: string): (r: Result<Server, ApiError>)
    ensures r.Success? <==> Organization(s, org).Success? && FullName(org, name) !in s.repos
    ensures r.Success? ==> FullName(org, name) in r.value.repos && r.value.repos[FullName(org, name)] == RepoState(org, name, map[], [])
    ensures r.Success? ==> OnlyTouches(s, r.value, FullName(org, name)) && r.value.clock == s.clock
    ensures r.Success? && Valid(s) ==> Valid(r.value)
  {
    match Organization(s, org)
    case Failure(e) => Failure(e)
    case Success(_) =>
      if FullName(org, name) in s.repos then Failure(AlreadyExists)
      else Success(s.(repos := s.repos[FullName(org, name) := RepoState(org, name, map[], [])]))
  }

  /**
   * `create_repo_from_template(name, template)` on `org`: a new repository
   * with the template's files and one fresh initial commit.
   */
  function NewRepoFromTemplate(s: Server, org: string, name: string, template: Handle): (r: Result<Server, ApiError>)
    ensures r.Success? <==>
      Organization(s, org).Success? && Key(template) in s.repos && FullName(org, name) !in s.repos
    ensures r.Success? ==>
      && FullName(org, name) in r.value.repos
      && r.value.repos[FullName(org, name)].files == s.repos[Key(template)].files
      && r.value.repos[FullName(org, name)].commits == [Commit(s.clock, "Initial commit")]
      && OnlyTouches(s, r.value, FullName(org, name))
    ensures r.Success? && Valid(s) ==> Valid(r.value)
  {
    match Organization(s, org)
    case Failure(e) => Failure(e)
    case Success(_) =>
      if Key(template) !in s.repos then Failure(NotFound)
      else if FullName(org, name) in s.repos then Failure(AlreadyExists)
      else
        var st := RepoState(org, name, s.repos[Key(template)].files, [Commit(s.clock, "Initial commit")]);
        Success(s.(repos := s.repos[FullName(org, name) := st], clock := s.clock + 1))
  }

  /**
   * `repo.create_file(path, message, content)`: adds the file in a new commit
   * at the head of the list; refused (422) when the path already exists.
   */
  function PutFile(s: Server, h: Handle, w: FileWrite): (r: Result<Server, ApiError>)
    ensures r.Success? <==> Locate(s, Key(h)).Success? && w.path !in s.repos[Key(h)].files
    ensures r.Failure? && Locate(s, Key(h)).Success? ==> r.error == AlreadyExists
    ensures r.Success? ==>
      && Key(h) in r.value.repos
      && r.value.repos[Key(h)].files == s.repos[Key(h)].files[w.path := w.content]
      && r.value.repos[Key(h)].commits == [Commit(s.clock, w.message)] + s.repos[Key(h)].commits
      && r.value.clock == s.clock + 1
      && OnlyTouches(s, r.value, Key(h))
    ensures r.Success? && Valid(s) ==> Valid(r.value)
  {
    match Locate(s, Key(h))
    case Failure(e) => Failure(e)
    case Success(st) =>
      if w.path in st.files then Failure(AlreadyExists)
      else
        var st' := st.(files := st.files[w.path := w.content], commits := [Commit(s.clock, w.message)] + st.commits);
        Success(s.(repos := s.repos[Key(h) := st'], clock := s.clock + 1))
  }

  /**
   * A sequence of `create_file` calls on one repository, stopping at the
   * first that fails: the server after the calls that went through, and
   * the error if one failed.
   */
  function Writes(s: Server, h: Handle, ws: seq<FileWrite>): (out: (Server, Result<(), ApiError>))
    ensures OnlyTouches(s, out.0, Key(h))
    ensures s.clock <= out.0.clock
    ensures Valid(s) ==> Valid(out.0)
    ensures out.1.Success? ==> out.0.clock == s.clock + |ws|
    ensures out.1.Success? && ws != [] ==>
      Key(h) in out.0.repos && Key(h) in s.repos &&
      |out.0.repos[Key(h)].commits| == |s.repos[Key(h)].commits| + |ws| &&
      out.0.repos[Key(h)].commits[|ws|..] == s.repos[Key(h)].commits &&
      out.0.repos[Key(h)].commits[0] == Commit(s.clock + |ws| - 1, ws[|ws| - 1].message)
    decreases |ws|
  {
    if ws == [] then (s, Success(()))
    else
      match PutFile(s, h, ws[0])
      case Failure(e) => (s, Failure(e))
      case Success(s1) => Writes(s1, h, ws[1..])
  }

  /** `repo.delete()`. */
  function Remove(s: Server, h: Handle): (r: Result<Server, ApiError>)
    ensures r.Success? <==> Locate(s, Key(h)).Success?
    ensures r.Success? ==> Key(h) !in r.value.repos && OnlyTouches(s, r.value, Key(h)) && r.value.clock == s.clock
    ensures r.Success? && Valid(s) ==> Valid(r.value)
  {
    match Locate(s, Key(h))
    case Failure(e) => Failure(e)
    case Success(_) => Success(s.(repos := s.repos - {Key(h)}))
  }

  /**
   * A commit the learner pushes from a clone. The system never does this
   * itself; it is what the commit-detection steps wait for.
   */
  function Pushed(s: Server, h: Handle, message: string): (r: Result<Server, ApiError>)
    ensures r.Success? <==> Locate(s, Key(h)).Success?
    ensures r.Success? ==>
      && Key(h) in r.value.repos
      && r.value.repos[Key(h)].commits == [Commit(s.clock, message)] + s.repos[Key(h)].commits
      && r.value.repos[Key(h)].files == s.repos[Key(h)].files
      && OnlyTouches(s, r.value, Key(h))
    ensures r.Success? && Valid(s) ==> Valid(r.value)
  {
    match Locate(s, Key(h))
    case Failure(e) => Failure(e)
    case Success(st) =>
      Success(s.(repos := s.repos[Key(h) := st.(commits := [Commit(s.clock, message)] + st.commits)], clock := s.clock + 1))
  }

  /** The server after a write: the new state if it went through, the old one if not. */
  function Apply(s: Server, out: Result<Server, ApiError>): Server {
    if out.Success? then out.value else s
  }

  function Status(out: Result<Server, ApiError>): Result<(), ApiError> {
    if out.Success? then Success(()) else Failure(out.error)
  }

  /** The authenticated API client: every write goes through it. */
  class Hub {
    var server: Server

    constructor (initial: Server)
      ensures server == initial
    {
      server := initial;
    }

    method CreateFile(h: Handle, w: FileWrite) returns (r: Result<(), ApiError>)
      modifies this
      ensures server == Apply(old(server), PutFile(old(server), h, w))
      ensures r == Status(PutFile(old(server), h, w))
    {
      var out := PutFile(server, h, w);
      server := Apply(server, out);
      r := Status(out);
    }

    method CreateRepo(org: string, name: string) returns (r: Result<Handle, ApiError>)
      modifies this
      ensures server == Apply(old(server), NewRepo(old(server), org, name))
      ensures NewRepo(old(server), org, name).Success? ==> r == Success(Handle(org, name))
      ensures NewRepo(old(server), org, name).Failure? ==> r == Failure(NewRepo(old(server), org, name).error)
    {
      var out := NewRepo(server, org, name);
      server := Apply(server, out);
      r := if out.Success? then Success(Handle(org, name)) else Failure(out.error);
    }

    method CreateRepoFromTemplate(org: string, name: string, template: Handle) returns (r: Result<Handle, ApiError>)
      modifies this
      ensures server == Apply(old(server), NewRepoFromTemplate(old(server), org, name, template))
      ensures NewRepoFromTemplate(old(server), org, name, template).Success? ==> r == Success(Handle(org, name))
      ensures NewRepoFromTemplate(old(server), org, name, template).Failure? ==>
        r == Failure(NewRepoFromTemplate(old(server), org, name, template).error)
    {
      var out := NewRepoFromTemplate(server, org, name, template);
      server := Apply(server, out);
      r := if out.Success? then Success(Handle(org, name)) else Failure(out.error);
    }

    method Delete(h: Handle) returns (r: Result<(), ApiError>)
      modifies this
      ensures server == Apply(old(server), Remove(old(server), h))
      ensures r == Status(Remove(old(server), h))
    {
      var out := Remove(server, h);
      server := Apply(server, out);
      r := Status(out);
    }
  }
}
