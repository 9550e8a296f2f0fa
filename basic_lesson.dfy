/**
 * The steps of the live "basic module" (modules/basic.py): a step that
 * adds a README and passes unconditionally, and placeholder steps that do
 * nothing and always pass.
 */
module BasicLesson {
  import opened Wrappers
  import opened GitHub
  import opened Core
  import Runtime

  /** The README that `AddReadme.action` commits. */
  const ReadmeWrite := FileWrite(ReadmePath, "Initialize repository", "# README\n\nWelcome to git-learner!")

  /** First heading of the static welcome page; the rest of that prose is not modelled. */
  const WelcomePage := "## Welcome to Git Learner!"

  /** `AddReadme.action`: one commit that adds README.md. */
  method AddReadmeAction(hub: Hub, repo: Handle) returns (r: Result<(), ApiError>)
    modifies hub
    ensures hub.server == Apply(old(hub.server), PutFile(old(hub.server), repo, ReadmeWrite))
    ensures r == Status(PutFile(old(hub.server), repo, ReadmeWrite))
  {
    r := hub.CreateFile(repo, ReadmeWrite);
  }

  /** `AddReadme.check` passes with an empty message whatever state the repository is in. */
  function AddReadmeCheck(s: Server, repo: Handle): (c: Checked)
    ensures c.result == GOOD && c.message == ""
  {
    Checked(GOOD, "")
  }

  /** `DummyStep.check` passes with an empty message whatever state the repository is in. */
  function DummyCheck(s: Server, repo: Handle): (c: Checked)
    ensures c.result == GOOD && c.message == ""
  {
    Checked(GOOD, "")
  }

  /** `DummyStep.instructions`: the step's own text after a fixed prefix. */
  function DummyInstructions(text: string): (r: string)
    ensures |r| == |"Instructions: "| + |text|
    ensures r[..|"Instructions: "|] == "Instructions: " && r[|"Instructions: "|..] == text
  {
    "Instructions: " + text
  }

  /** The text of the i-th placeholder step of the basic module. */
  function DummyText(i: nat): string {
    "this step does nothing: " + Runtime.Decimal(i)
  }

  /** A successful AddReadme action leaves README.md with the welcome text, in a commit of its own. */
  lemma AddReadmeCreates(s: Server, repo: Handle)
    requires PutFile(s, repo, ReadmeWrite).Success?
    ensures Readme(PutFile(s, repo, ReadmeWrite).value, repo) == Success(ReadmeWrite.content)
    ensures Commits(PutFile(s, repo, ReadmeWrite).value, repo).value[0].message == "Initialize repository"
  {
  }
}
