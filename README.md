# git-learner step engine in Dafny

git-learner teaches git workflows. It walks a learner through a **module**: an ordered list of **steps**. Each step has three operations:

- an `action` sets up the learner's GitHub repository;
- `instructions` renders the page for the step;
- a `check` grades what the learner did.

A **session** holds a cursor into the module. It moves the cursor according to the check outcome.

The repository contains three generations of this engine. Their bounds differ, so they are modelled separately:

- the live engine (`module_core/steps.py`), which runs the lessons of `modules/basic.py` and `modules/clone_commit_update_push.py`;
- the older engine (`modules/steps.py`), whose steps are those of `discover/basic.py`;
- the dictionary-driven engine (`modules/defs.py`), whose steps are those of `modules/create_repo.py`.

GitHub is modelled as a value (`GitHub.Server`). It holds organisations and repositories by full name "owner/name". Each repository has files and a commit list, most recent first. Every API call the engines make is a function on that value. The mutable `GitHub.Hub` object stands for the shared authenticated client, and every write goes through it. A commit's sha comes from a clock, so a new commit never has an old sha. Python exceptions are the values of `Errors.Exc`, and operations that can raise return a `Result`. Random words are parameters.

Files:

- `wrappers.dfy`: `Option`, `Result`.
- `runtime.dfy`: Python list indexing, `str` of an integer, `"\n".join`.
- `errors.dfy`: exceptions.
- `github.dfy`: the GitHub service.
- `core.dfy`: live `CheckResult` and repository naming.
- `basic_lesson.dfy`, `push_lesson.dfy`: the live steps.
- `live_engine.dfy`: live `Module` and `Session`.
- `catalog.dfy`: the two live modules and the registry.
- `discover.dfy`: the discover steps and their module.
- `older_engine.dfy`: the older engine.
- `repo_steps.dfy`: `GithubStep` and the create_repo.py steps.
- `defs_engine.dfy`: the dictionary-driven `Module` and `test_module`.

Behaviour of the code worth noting:

- The live cursor is 0-based. A session may start at `0 <= current_step < len - 1`.
- A fresh session runs no step's action.
- A GOOD check on the last step moves the cursor to `len`, and reading that step then raises IndexError. Nothing clamps the cursor.
- The live `next()` sets the toast to the check's message on every outcome, GOOD included.
- "basic module" has six steps.
- Checks are not all free of side effects: the commit-detection checks record a baseline commit.

## Model

| member | source | states |
|---|---|---|
| `Core.RepoName` | module_core/steps.py:39-42 | the name is the adjective, a dash, then the noun; the dash sits right after the adjective |
| `Core.RepoNameDetermines` | module_core/steps.py:39-42 | for dash-free adjectives, the generated name determines both the adjective and the noun |
| `Core.CreateRepo` | module_core/steps.py:32-45 | creates "adjective-noun" under the organisation; the handle names it; API errors are raised |
| `Core.CreateRepoFromTemplate` | module_core/steps.py:48-62 | as above, copying the template's files into the new repository |
| `LiveEngine.Module.Length` | module_core/steps.py:79-80 | `len(module)` is the number of steps supplied |
| `LiveEngine.Module.Get` | module_core/steps.py:82-86 | a non-integer key raises ValueError; an integer uses list indexing: negatives count from the end, and IndexError outside `[-len, len)` |
| `LiveEngine.Module.Create` | module_core/steps.py:76-77 | `create` provisions with the initializer: a new or template repository "adjective-noun" under its organisation |
| `LiveEngine.CheckOutcome` | module_core/steps.py:27-29 | every step except the two commit watchers answers `(GOOD, "")`; the only failing verdict is `(USER_ERROR, "No new commit pushed")` |
| `LiveEngine.ActEffect` | module_core/steps.py:23-25 | Dummy, PushNoConflict and End actions leave the service alone; a successful AddReadme or PushAfterUpdate action puts its one commit on top of the repository's history; Clone puts two; a failed single write changes nothing |
| `LiveEngine.CheckStep` | module_core/steps.py:27-29 | dispatches `check`; the watcher steps' baseline maps are updated as their own checks do |
| `LiveEngine.ActStep` | module_core/steps.py:23-25 | dispatches `action`; only PushAfterUpdate moves its baseline, and only after its write succeeded |
| `LiveEngine.CursorAfterNext` | module_core/steps.py:127-133 | the cursor moves by exactly one iff it was on a step whose check was GOOD; otherwise it stays |
| `LiveEngine.RunCountsGood` | module_core/steps.py:127-144 | over any run of `next()` calls the cursor ends at the start plus the number of GOOD checks, capped at the length; it never moves back |
| `LiveEngine.PairEqualsGood` | module_core/steps.py:125 | the written comparison of the returned pair with `GOOD` is always false |
| `LiveEngine.CheckAsWrittenRejectsGood` | module_core/steps.py:123-125 | AddReadme's check is `(GOOD, "")`, and the written comparison rejects it |
| `LiveEngine.Session.Start` | module_core/steps.py:90-117 | ValueError unless `0 <= current_step < len - 1`, so a module of fewer than two steps admits no session; with no name, the repository comes from `create` and its name becomes `repo_name`; otherwise it is fetched as "org/repo_name"; no action runs and the hub changes only by provisioning |
| `LiveEngine.Session.Instructions` | module_core/steps.py:119-121 | the current step's instructions; IndexError once the cursor is past the end |
| `LiveEngine.Session.Check` | module_core/steps.py:123-125 | as written: runs the current check and never answers true; the current watcher's baseline map becomes the check's, and every other step's map is unchanged |
| `LiveEngine.Session.Passes` | module_core/steps.py:123-125 | corrected: true exactly when the current step's check is GOOD; baseline maps change as in `Check` |
| `LiveEngine.Session.Next` | module_core/steps.py:127-144 | a failed check changes nothing; otherwise the toast becomes the check's message; GOOD moves the cursor by one, runs the new step's action and sets its instructions, returning true; on the last step it raises IndexError with the cursor at `len`; USER_ERROR/RECOVERABLE return false with the cursor kept; UNRECOVERABLE raises with the cursor kept; only the baseline maps of the checked and the entered step can change; the cursor invariant `0 <= current_step <= len` holds |
| `LiveEngine.Session.Cleanup` | module_core/steps.py:146-148 | deletes the session's repository |
| `BasicLesson.AddReadmeAction` | modules/basic.py:9-16 | one commit "Initialize repository" adds README.md with the welcome text |
| `BasicLesson.AddReadmeCheck` | modules/basic.py:18-19 | always `(GOOD, "")` |
| `BasicLesson.DummyCheck` | modules/basic.py:54-55 | always `(GOOD, "")` |
| `BasicLesson.DummyInstructions` | modules/basic.py:57-58 | the prefix "Instructions: " followed by the step's own text |
| `BasicLesson.AddReadmeCreates` | modules/basic.py:9-16 | after a successful action the README reads the welcome text, and the head commit is "Initialize repository" |
| `Catalog.BasicModule` | modules/basic.py:61-71 | "basic module": six steps, AddReadme then dummies "this step does nothing: 0" to "…: 4", in a new repository under cs334f24 |
| `Catalog.BasicModuleAlwaysGood` | modules/basic.py:18-19 | every check of the basic module is `(GOOD, "")` whatever the repository holds |
| `Catalog.BasicModuleActions` | modules/basic.py:51-52 | only the first step's action writes (the README); dummy actions do nothing |
| `Catalog.StartBasicModule` | module_core/steps.py:103-104 | opening a live session on the basic module raises ValueError exactly when the cursor is outside steps 0 to 4; the service is then untouched |
| `Catalog.PushAfterUpdateModule` | modules/clone_commit_update_push.py:219-230 | "push-after-update": exactly Clone, PushNoConflict, PushAfterUpdate, End, with empty baseline maps, in a new repository under cs334f24 |
| `Catalog.ActiveModules` | modules/__init__.py:1-9 | exactly two entries; each key is the name of its module; "basic module" is the basic module and "push-after-update" has the four push steps |
| `PushLesson.CloneAction` | modules/clone_commit_update_push.py:11-24 | commits README.md ("Add README") and then favorite_colors.txt ("Create favorite colors file", "red"), stopping at the first failure |
| `PushLesson.PassCheck` | modules/clone_commit_update_push.py:26-27 | CloneStep and EndStep checks are always `(GOOD, "")` |
| `PushLesson.Seed` | modules/clone_commit_update_push.py:70-74 | a missing baseline is seeded with the second-most-recent commit, or the only one; an existing one is never replaced; other repositories' entries are unchanged |
| `PushLesson.Detect` | modules/clone_commit_update_push.py:76-81 | GOOD exactly when the baseline sha differs from the latest; otherwise `(USER_ERROR, "No new commit pushed")` |
| `PushLesson.ObserveAgain` | modules/clone_commit_update_push.py:65-81 | checking twice on unchanged commits gives the same verdict and the same baselines |
| `PushLesson.ObserveIsolated` | modules/clone_commit_update_push.py:58-59 | a check on one repository leaves every other repository's baseline as it was |
| `PushLesson.PushDetected` | modules/clone_commit_update_push.py:76-81 | with a baseline from the repository's history, a pushed commit is detected and reported with its message |
| `PushLesson.PushNoConflict.Check` | modules/clone_commit_update_push.py:65-81 | seeds as `Seed` does; the verdict is `Detect`'s, with `str(commit)` as the GOOD message; API errors propagate with the map unchanged |
| `PushLesson.PushAfterUpdate.Action` | modules/clone_commit_update_push.py:143-147 | commits random_words.txt ("Add random words", the words one per line), then makes that commit the baseline |
| `PushLesson.PushAfterUpdate.Check` | modules/clone_commit_update_push.py:149-165 | as PushNoConflict, with "All good!" as the GOOD message |
| `PushLesson.CheckRightAfterUpdate` | modules/clone_commit_update_push.py:143-165 | right after the action, the check answers `(USER_ERROR, "No new commit pushed")` |
| `PushSeeding.FirstCheckPassesWithoutPush` | modules/clone_commit_update_push.py:61-81 | as written: on a fresh repository after CloneStep's action, the first PushNoConflict check is GOOD although nothing was pushed |
| `PushSeeding.SeedAtEntry` | modules/clone_commit_update_push.py:61-63 | corrected: the baseline is the latest commit when the step is entered; only that entry changes |
| `PushSeeding.EntrySeedWaitsForPush` | modules/clone_commit_update_push.py:61-81 | with the baseline taken at entry, the check is USER_ERROR until a push and GOOD right after one |
| `Discover.Check` | discover/basic.py:19-23 | AddReadme is GOOD iff the README lookup succeeds, and the lookup's error is raised otherwise; dummy steps are always GOOD |
| `Discover.Act` | discover/basic.py:10-17 | AddReadme commits README.md ("Initialize repository"); a dummy action does nothing |
| `Discover.Instructions` | discover/basic.py:41-42 | a dummy step shows "Instructions: " and its text |
| `Discover.ActThenCheck` | discover/basic.py:10-23 | after AddReadme's action succeeds its check is GOOD; dummy actions leave the service alone |
| `DiscoverCatalog.BasicModule` | discover/basic.py:49-55 | "basic module": AddReadme and five dummy steps numbered from 0 |
| `DiscoverCatalog.OnlyGoodOrRaise` | discover/basic.py:19-23 | these checks answer GOOD or raise, never another result |
| `OlderEngine.Module.Length` | modules/steps.py:55-56 | `len(module)` is the step count |
| `OlderEngine.Module.Get` | modules/steps.py:58-62 | ValueError for a non-integer key, list indexing otherwise |
| `OlderEngine.RequestedName` | modules/steps.py:31-38 | as written, the requested name is the organisation, "/", then "adjective-noun" |
| `OlderEngine.CreateRepo` | modules/steps.py:31-38 | as written: asks the organisation for a repository named "org/adjective-noun" |
| `OlderEngine.RequestedNameMisnames` | modules/steps.py:31-38 | that repository is never the one named "adjective-noun" under the organisation |
| `OlderEngine.ToastFor` | modules/steps.py:97-113 | the toast is empty exactly for GOOD; the three fixed strings otherwise |
| `OlderEngine.CursorAfterNext` | modules/steps.py:93-99 | the cursor moves by one exactly when it was on a step whose check was GOOD |
| `OlderEngine.Session.Start` | modules/steps.py:66-87 | ValueError unless `0 < current_step < len`, so the default 0 is always refused; the repository is always fetched as "org/repo_name" |
| `OlderEngine.Session.CanContinue` | modules/steps.py:89-91 | true exactly when the current step's check is GOOD |
| `OlderEngine.Session.Next` | modules/steps.py:93-113 | GOOD: the cursor moves by one, the new step acts, its instructions are shown and the toast is cleared; IndexError on the last step. USER_ERROR and RECOVERABLE set their fixed toasts and keep the cursor. UNRECOVERABLE sets its toast and raises. The invariant `0 < current_step <= len` holds |
| `OlderEngine.Session.Cleanup` | modules/steps.py:115-117 | deletes the repository |
| `RepoSteps.Resolve` | modules/defs.py:31-38 | `get_repo` prefers the cached repository, then `data["repo"]`, then fetches "org/data['repo_name']"; KeyError when neither key is present |
| `RepoSteps.CacheAfter` | modules/defs.py:33-34 | once set, the cache is never replaced |
| `RepoSteps.GithubStep.GetRepo` | modules/defs.py:31-38 | resolves as `Resolve` and caches the result |
| `RepoSteps.GithubStep.Open` | modules/defs.py:27-29 | a step is built only when the organisation exists; otherwise the lookup error is raised |
| `RepoSteps.WithRepo` | modules/create_repo.py:32-38 | the returned data keeps every input key and adds `repo_name`, `repo_url` (the API address) and `repo` |
| `RepoSteps.ActEffect` | modules/create_repo.py:32-119 | the creating steps succeed iff creation does, and return `WithRepo` of the input; AddReadme and AddRandomFile return their input unchanged; a raising act leaves the service unchanged |
| `RepoSteps.GithubStep.Act` | modules/create_repo.py:32-119 | performs `ActEffect` on the client and the step's cache |
| `RepoSteps.CheckOutcome` | modules/create_repo.py:40-102 | creating steps: `(True, "")` iff the repository exists, `(False, "Repository not created")` on 404, `(False, "something went wrong, …")` otherwise, never raising; AddReadme: `(True, "")` iff the repository is known and has a README, otherwise `(False, "something went wrong, …")` naming the failed lookup, with get_repo's errors raised; AddRandomFile: `(True, "")` once the repository is resolved |
| `RepoSteps.GithubStep.Check` | modules/create_repo.py:40-102 | performs `CheckOutcome`, caching as `get_repo` does |
| `RepoSteps.CreatedThenFound` | modules/create_repo.py:32-47 | after a creating act succeeds, its check answers `(True, "")` |
| `RepoSteps.ReadmeThenFound` | modules/create_repo.py:57-75 | after AddReadme's act succeeds, its check answers `(True, "")` |
| `RepoSteps.Output` | modules/create_repo.py:49-50 | creating steps show `data["repo_url"]` or ""; the other steps show "" |
| `RepoSteps.OutputAfterCreate` | modules/create_repo.py:32-50 | after a creating act, the output is the new repository's API address |
| `DefsEngine.Merge` | modules/defs.py:77 | returned keys overwrite and all other keys are kept |
| `DefsEngine.Advanced` | modules/defs.py:83-88 | the index moves by one exactly when the step is done and is not the last |
| `DefsEngine.RunBounded` | modules/defs.py:83-88 | over any run of `next()` calls the index never moves back and never passes the last step, or its start if that was already beyond |
| `DefsEngine.Module.constructor` | modules/defs.py:42-52 | the index is `init_step` unchecked; the data is `init_data` or an empty dict; `step_done` is absent |
| `DefsEngine.Module.Progress` | modules/defs.py:54-56 | the current index and the number of steps |
| `DefsEngine.Module.Length` | modules/defs.py:61-62 | the number of steps |
| `DefsEngine.Module.Get` | modules/defs.py:64-73 | succeeds exactly for integers in `[0, len)`; ValueError for a non-integer key; IndexError naming the index and step count otherwise |
| `DefsEngine.Module.Act` | modules/defs.py:75-77 | the current step acts on the data and its result is merged in; on error the data is unchanged; no other step's cache and no other client changes |
| `DefsEngine.Module.CanContinue` | modules/defs.py:79-81 | records the check's verdict in `step_done` and returns it; no other step's cache changes |
| `DefsEngine.Module.Next` | modules/defs.py:83-88 | AttributeError without an earlier `can_continue`; otherwise moves one step and clears `step_done` exactly when it was true and the step is not the last |
| `TestModule.InitialData` | modules/create_repo.py:140 | `{"repo_name": repo}` exactly when `repo` is non-empty, else empty |
| `TestModule.Build` | modules/create_repo.py:130-142 | ValueError when starting past step 0 without a repository; otherwise CreateRepo("adjective-noun"), AddReadme, AddRandomFile under the organisation, starting at `current_step` with `InitialData(repo)` |
| `Runtime.ListIndex` | module_core/steps.py:86 | Python list indexing: defined exactly on `[-len, len)`, with negatives from the end |
| `Runtime.Decimal` | modules/basic.py:68 | `str(n)`: a non-empty string of digits |
| `Runtime.DecimalValue` | modules/basic.py:68 | the digits of `str(n)` spell `n`, with no leading zero |
| `GitHub.Fetch` | module_core/steps.py:117 | `get_repo` succeeds iff the repository exists and the service is up; the handle names the stored repository |
| `GitHub.Commits` | modules/clone_commit_update_push.py:66-68 | `get_commits()[0]` succeeds only on a non-empty history |
| `GitHub.Readme` | discover/basic.py:20 | `get_readme` succeeds iff README.md exists; 404 otherwise |
| `GitHub.NewRepo` | module_core/steps.py:44-45 | `create_repo` needs the organisation and a free name; it adds an empty repository and nothing else |
| `GitHub.NewRepoFromTemplate` | module_core/steps.py:61-62 | copies the template's files into one fresh commit under a free name |
| `GitHub.PutFile` | modules/basic.py:10-16 | `create_file` refuses an existing path; otherwise it adds the file in a fresh commit at the head |
| `GitHub.Writes` | modules/clone_commit_update_push.py:12-24 | successive `create_file` calls stop at the first failure and touch only that repository |
| `GitHub.Remove` | module_core/steps.py:148 | `delete` removes exactly that repository |

## Left out

- Authentication and client construction are not modelled: `get_github` (modules/create_repo.py:8-21), modules/delete_repo.py and the Flask client with its token refresh. `GitHub.Hub` stands for an already authenticated client.
- Random word generation is not modelled. The adjective, noun, file word and word list are parameters.
- Instruction pages are static Markdown. The model keeps the heading of each page and the interpolated values (clone URL, repository name, dummy text), not the prose.
- A live module's initializer is any callable in the source. Here it is one of the two shapes the source uses: `create_repo` or `create_repo_from_template` under an organisation.
- The older engine's `Module.create` and `initializer` (modules/steps.py:52-53) are not modelled. The older `Session` never calls them.
- discover/basic.py imports `Module` and `create_repo` from the `modules` package. That package exports the live `Module` and has no `create_repo` function. The model pairs these steps with the older engine, whose `Step` and bare `CheckResult` they implement. Their initializer (discover/basic.py:45-46) is not modelled.
- `Discover.Check` raises on a missing README instead of answering UNRECOVERABLE. `get_readme` returns an object that is always truthy, or raises. So the UNRECOVERABLE branch cannot be reached.
- `LiveEngine.Session.Next` says which baseline maps may change (those of the checked and the entered step), but not their new values. `LiveEngine.CheckStep` and `LiveEngine.ActStep` state those.
- `example_module` (modules/create_repo.py:122-127) is not modelled. It needs a private key file to build its client.
- `Module.__iter__` (modules/defs.py:58-59) is not modelled. It only yields the steps.
- Dictionaries are values here. Python's `init_data or {}` keeps the caller's dict by reference, so changes the caller makes later are not modelled.
- `isinstance(index, int)` also accepts `bool`. Keys here are integers or some other type, with no boolean case.
- The service model is simplified in these ways:
  - Any repository name is accepted; GitHub's own renaming of characters such as "/" is not modelled.
  - Pagination, rate limits and permissions are not modelled.
  - Every other failure is a single outage error.
  - Commits keep only a sha and a message.
  - README content is a string.
- `RepoSteps.Resolve` gives an approximate message for the AssertionError the client raises on a non-string `repo_name`.
- Persistence (db/create.py), the Flask routes and the browser script are not modelled. They are storage and HTTP.

## Findings

| source | as written | input that shows it | evidently intended | confidence | as-written member | corrected member |
|---|---|---|---|---|---|---|
| module_core/steps.py:123-125 | `check()` compares the `(result, message)` pair returned by the step with `CheckResult.GOOD` | "basic module" at step 0: AddReadme's check returns `(GOOD, "")` and `check()` returns False | true when the result is GOOD | high; not executed | `LiveEngine.Session.Check` | `LiveEngine.Session.Passes` |
| modules/steps.py:31-38 | `create_repo` asks the organisation for a repository named `f"{org_name}/{repo_name}"` | org "cs334f24", words "brave" and "otter": the request names "cs334f24/brave-otter" inside cs334f24, so "cs334f24/brave-otter" is not what gets created | create "brave-otter" under the organisation, as the live engine does | medium; not executed | `OlderEngine.RequestedNameMisnames` | `Core.CreateRepo` |
| modules/clone_commit_update_push.py:61-81 | a missing baseline is seeded at the first check, from the second-most-recent commit | a new repository after CloneStep's action (README commit, then colours commit), nothing pushed: the baseline is the README commit and the latest is the colours commit, so the first check is GOOD | the check passes only after the learner pushes; the baseline is the latest commit when the step is entered, as the commented-out line 62 does | medium; not executed; the input needs CloneStep's action to have run, and the live `Session` never runs the first step's action itself | `PushSeeding.FirstCheckPassesWithoutPush` | `PushSeeding.EntrySeedWaitsForPush` |

The live engine model keeps the as-written seeding of the third row, because that is what runs. `PushSeeding.SeedAtEntry` gives the corrected seeding beside it.
