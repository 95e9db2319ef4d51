/** The upload wizard: the step captions, the PDF-only file picker and the
    four-stage submit run with its progress bar and final reset. */
module UploadPage {
  import opened Common

  const StepCaptions: seq<string> :=
    ["Uploading resume...", "Extracting text from PDF...", "Fetching GitHub data...", "Analyzing with AI..."]

  const OtherCaption := "Processing..."

  /** `getStepDescription`. */
  function StepDescription(step: int): (caption: string)
    ensures 1 <= step <= 4 ==> caption == StepCaptions[step - 1]
    ensures !(1 <= step <= 4) ==> caption == OtherCaption
  {
    match step
    case 1 => "Uploading resume..."
    case 2 => "Extracting text from PDF..."
    case 3 => "Fetching GitHub data..."
    case 4 => "Analyzing with AI..."
    case _ => OtherCaption
  }

  /** Each of the four steps has its own caption, none of them the fallback one. */
  lemma CaptionsDistinct(a: int, b: int)
    requires 1 <= a <= 4 && 1 <= b <= 4 && a != b
    ensures StepDescription(a) != StepDescription(b)
    ensures StepDescription(a) != OtherCaption
  {
  }

  datatype FileInfo = FileInfo(name: string, mimeType: string)

  /** The storage upload: it succeeded, or failed with an error message
      (a missing user surfaces here too, as the error of reading `user.id`). */
  datatype UploadResult = Uploaded | UploadError(message: string)

  /** A `fetch` stage: an ok answer whose JSON reads, an answer that is not
      ok, or an exception (network failure or unreadable JSON) with its message. */
  datatype StageResult = StageOk | NotOk | Threw(message: string)

  /** How each stage of a submit run ends. */
  datatype Stages = Stages(upload: UploadResult, extract: StageResult, github: StageResult, analyze: StageResult)

  datatype SubmitOutcome = Rejected | Succeeded | Failed(message: string)

  /** (step, progress) as the run sets them. */
  datatype Snapshot = Snapshot(step: int, progress: int)

  /** Every (step, progress) the `try` block's setter calls produce, in order,
      when all four stages succeed: `setStep(k)` keeps the previous progress,
      then `setProgress` moves it on. */
  const Setters: seq<Snapshot> :=
    [Snapshot(1, 0), Snapshot(1, 20), Snapshot(2, 20), Snapshot(2, 40), Snapshot(3, 40),
     Snapshot(3, 60), Snapshot(4, 60), Snapshot(4, 80), Snapshot(4, 100)]

  /** How many stages succeed before the first failure. */
  function StagesPassed(s: Stages): (n: nat)
    ensures n <= 4
    ensures n == 4 <==> s.upload.Uploaded? && s.extract.StageOk? && s.github.StageOk? && s.analyze.StageOk?
  {
    if s.upload.UploadError? then 0
    else if !s.extract.StageOk? then 1
    else if !s.github.StageOk? then 2
    else if !s.analyze.StageOk? then 3
    else 4
  }

  /** The setter calls a run reaches: two for each stage it starts, and the
      final `setProgress(100)` when every stage succeeds. */
  function RunTrace(s: Stages): seq<Snapshot>
  {
    Setters[..if StagesPassed(s) == 4 then |Setters| else 2 * StagesPassed(s) + 2]
  }

  /** The step the run is at when it stops: the failing stage, or 4. */
  function LastStep(s: Stages): int
  {
    if StagesPassed(s) == 4 then 4 else StagesPassed(s) + 1
  }

  /** Everything a submit run records: `setProgress(0)` before the `try`, the
      run, and the `finally` block's `setProgress(0)` then `setStep(1)`. */
  function SubmitTrace(s: Stages, startStep: int): seq<Snapshot>
  {
    [Snapshot(startStep, 0)] + RunTrace(s) + [Snapshot(LastStep(s), 0), Snapshot(1, 0)]
  }

  const DefaultFailure := "An error occurred during analysis"

  /** `error.message || "An error occurred during analysis"`. */
  function Reported(message: string): string
  {
    if message != "" then message else DefaultFailure
  }

  /** The message thrown for a failed `fetch` stage. */
  function StageFailure(r: StageResult, notOk: string): string
    requires !r.StageOk?
  {
    if r.NotOk? then notOk else r.message
  }

  /** The toast text of a failed run: never empty; a stage that answers "not
      ok" names itself, and an exception shows its own message, or the
      default when that message is empty. */
  function FailureMessage(s: Stages): (m: string)
    requires StagesPassed(s) < 4
    ensures m != ""
    ensures s.upload.UploadError? ==> m == Reported(s.upload.message)
    ensures StagesPassed(s) == 1 && s.extract.NotOk? ==> m == "Failed to extract PDF text"
    ensures StagesPassed(s) == 2 && s.github.NotOk? ==> m == "Failed to fetch GitHub data"
    ensures StagesPassed(s) == 3 && s.analyze.NotOk? ==> m == "Failed to analyze data"
    ensures StagesPassed(s) == 1 && s.extract.Threw? ==> m == Reported(s.extract.message)
    ensures StagesPassed(s) == 2 && s.github.Threw? ==> m == Reported(s.github.message)
    ensures StagesPassed(s) == 3 && s.analyze.Threw? ==> m == Reported(s.analyze.message)
  {
    Reported(
      if s.upload.UploadError? then s.upload.message
      else if !s.extract.StageOk? then StageFailure(s.extract, "Failed to extract PDF text")
      else if !s.github.StageOk? then StageFailure(s.github, "Failed to fetch GitHub data")
      else StageFailure(s.analyze, "Failed to analyze data"))
  }

  /** Within a run, from the reset to 0 up to the last setter call before
      `finally`, neither the step nor the progress ever goes down; the
      `finally` block then resets to progress 0 and step 1, and a successful
      run reaches step 4 with progress 100 first. */
  lemma {:induction false} ProgressMonotone(s: Stages, startStep: int)
    ensures var t := SubmitTrace(s, startStep);
      forall i, j :: 1 <= i < j < |t| - 2 ==> t[i].progress <= t[j].progress && t[i].step <= t[j].step
    ensures var t := SubmitTrace(s, startStep);
      t[0].progress == 0 && t[|t| - 2] == Snapshot(LastStep(s), 0) && t[|t| - 1] == Snapshot(1, 0)
    ensures StagesPassed(s) == 4 ==> RunTrace(s)[|RunTrace(s)| - 1] == Snapshot(4, 100)
  {
    var t := SubmitTrace(s, startStep);
    assert forall k :: 0 <= k < |RunTrace(s)| ==> t[k + 1] == RunTrace(s)[k];
    forall i, j | 1 <= i < j < |t| - 2
      ensures t[i].progress <= t[j].progress && t[i].step <= t[j].step
    {
      assert forall k :: 0 <= k < |RunTrace(s)| ==>
        RunTrace(s)[k] == if k == 8 then Snapshot(4, 100) else Snapshot(k / 2 + 1, 20 * ((k + 1) / 2));
    }
  }

  /** A failure at a stage leaves every later setter call unreached: the run
      stops right after the failing stage set its own step and progress. */
  lemma FailureSkipsLaterStages(s: Stages)
    requires StagesPassed(s) < 4
    ensures |RunTrace(s)| < |Setters|
    ensures RunTrace(s)[|RunTrace(s)| - 1] == Snapshot(LastStep(s), 20 * LastStep(s))
    ensures forall m :: m in RunTrace(s) ==> m.progress < 100 && m.step <= LastStep(s)
  {
  }

  /** The page's React state; `history` records, for every `setStep` and
      `setProgress` call in order, the (step, progress) pair it leaves. */
  class UploadForm {
    var file: Option<FileInfo>
    var githubUsername: string
    var loading: bool
    var progress: int
    var step: int
    ghost var history: seq<Snapshot>

    constructor()
      ensures file.None? && githubUsername == "" && !loading && progress == 0 && step == 1
      ensures history == []
    {
      file := None;
      githubUsername := "";
      loading := false;
      progress := 0;
      step := 1;
      history := [];
    }

    /** `handleFileChange`: only a PDF replaces the chosen file; anything else gives an error toast. */
    method HandleFileChange(selected: Option<FileInfo>) returns (errorToast: bool)
      modifies this`file
      ensures errorToast <==> !(selected.Some? && selected.value.mimeType == "application/pdf")
      ensures file == if errorToast then old(file) else selected
    {
      if selected.Some? && selected.value.mimeType == "application/pdf" {
        file := selected;
        errorToast := false;
      } else {
        errorToast := true;
      }
    }

    /** `setStep`: the new step, recorded with the current progress. */
    method SetStep(n: int)
      modifies this`step, this`history
      ensures step == n && history == old(history) + [Snapshot(n, progress)]
    {
      step := n;
      history := history + [Snapshot(step, progress)];
    }

    /** `setProgress`: the new progress, recorded with the current step. */
    method SetProgress(n: int)
      modifies this`progress, this`history
      ensures progress == n && history == old(history) + [Snapshot(step, n)]
    {
      progress := n;
      history := history + [Snapshot(step, progress)];
    }

    /** `handleSubmit`. */
    method HandleSubmit(stages: Stages) returns (outcome: SubmitOutcome)
      modifies this
      ensures file == old(file) && githubUsername == old(githubUsername)
      ensures old(file).None? || old(githubUsername) == "" ==>
        outcome == Rejected && loading == old(loading) && progress == old(progress) &&
        step == old(step) && history == old(history)
      ensures old(file).Some? && old(githubUsername) != "" ==>
        && history == old(history) + SubmitTrace(stages, old(step))
        && !loading && progress == 0 && step == 1
        && outcome == if StagesPassed(stages) == 4 then Succeeded else Failed(FailureMessage(stages))
    {
      if file.None? || githubUsername == "" {
        return Rejected;
      }
      loading := true;
      SetProgress(0);
      outcome := RunStages(stages);
      // finally
      loading := false;
      SetProgress(0);
      SetStep(1);
    }

    /** The `try`/`catch` block: the four stages in order, each announced by
        its step and progress, stopping at the first failure. It is entered
        right after `setProgress(0)`. */
    method RunStages(stages: Stages) returns (outcome: SubmitOutcome)
      requires progress == 0
      modifies this`step, this`progress, this`history
      ensures history == old(history) + RunTrace(stages)
      ensures step == LastStep(stages)
      ensures outcome == if StagesPassed(stages) == 4 then Succeeded else Failed(FailureMessage(stages))
    {
      SetStep(1);
      SetProgress(20);
      assert history == old(history) + Setters[..2];
      if stages.upload.UploadError? {
        return Failed(FailureMessage(stages));
      }
      SetStep(2);
      SetProgress(40);
      assert history == old(history) + Setters[..4];
      if !stages.extract.StageOk? {
        return Failed(FailureMessage(stages));
      }
      SetStep(3);
      SetProgress(60);
      assert history == old(history) + Setters[..6];
      if !stages.github.StageOk? {
        return Failed(FailureMessage(stages));
      }
      SetStep(4);
      SetProgress(80);
      assert history == old(history) + Setters[..8];
      if !stages.analyze.StageOk? {
        return Failed(FailureMessage(stages));
      }
      SetProgress(100);
      outcome := Succeeded;
    }
  }
}
