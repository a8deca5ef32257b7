/**
 The files inject leaves behind. The parent backs up and writes, forks a child that cleans up after the timeout,
 and starts the command; if that fails it kills the child, waits for it and cleans up itself. Parent and child
 step in any interleaving; the command leaves the files alone.
 */
module InjectRace {
  import opened Common
  import opened Inject

  type Files = map<string, string>

  /** One invocation: what is written where, for how long, and whether there is a command to start. */
  datatype Setup = Setup(q: Request, text: string, timeout: nat, hasCommand: bool) {
    predicate WritesFile() { q.replaceFile.Some? || q.outputFile.Some? }

    predicate Forks() { timeout > 0 && WritesFile() }

    /** A replaced file has been read before, so it is there. */
    predicate Fits(files: Files) {
      !q.Conflicting() && (q.replaceFile.Some? ==> q.replaceFile.value in files)
    }
  }

  datatype Parent =
    | Copying | Writing | Forking | Starting | Killing | Waiting | Restoring
    | Returned     // there was no command
    | Became       // exec succeeded, the parent is the command now
    | Failed       // exec failed and everything was cleaned up
    | ForkFailed

  datatype Child = NotForked | Sleeping | Awake | CleanedUp | Gone(cleaned: bool)

  datatype State = State(files: Files, parent: Parent, child: Child, signalled: bool)

  datatype Action =
    | Copy | Write | Fork(ok: bool) | Start(ok: bool) | Kill | Reap | Restore   // the parent's
    | Wake | CleanUp | Exit | Die                                              // the child's

  // ---------------------------------------------------------------------------
  // Steps
  // ---------------------------------------------------------------------------

  function Backup(f: string): string { f + ".vt" }

  /** A rename that cannot find its source changes nothing. */
  function Rename(files: Files, from: string, to: string): Files {
    if from in files then (files - {from})[to := files[from]] else files
  }

  /** What both processes do to clean up: put the backup back, or remove the output file. */
  function CleanedFiles(q: Request, files: Files): Files {
    match q.replaceFile
    case Some(f) => Rename(files, Backup(f), f)
    case None => if q.outputFile.Some? then files - {q.outputFile.value} else files
  }

  predicate Enabled(c: Setup, s: State, a: Action) {
    match a
    case Copy => s.parent == Copying
    case Write => s.parent == Writing
    case Fork(ok) => s.parent == Forking && (ok || c.Forks())
    case Start(ok) => s.parent == Starting && (ok || c.hasCommand)
    case Kill => s.parent == Killing
    case Reap => s.parent == Waiting && (s.child.Gone? || s.child == NotForked)
    case Restore => s.parent == Restoring
    case Wake => s.child == Sleeping
    case CleanUp => s.child == Awake
    case Exit => s.child == CleanedUp
    case Die => s.signalled && s.child in {Sleeping, Awake, CleanedUp}
  }

  predicate TargetThere(c: Setup, s: State) {
    s.parent == Copying || s.parent == Writing ==> c.Fits(s.files)
  }

  function Apply(c: Setup, s: State, a: Action): State
    requires Enabled(c, s, a) && TargetThere(c, s)
  {
    match a
    case Copy =>
      var files := match c.q.replaceFile case Some(f) => s.files[Backup(f) := s.files[f]] case None => s.files;
      s.(files := files, parent := Writing)
    case Write =>
      var files :=
        match c.q.replaceFile
        case Some(f) => s.files[f := c.text]
        case None => if c.q.outputFile.Some? then s.files[c.q.outputFile.value := c.text] else s.files;
      s.(files := files, parent := Forking)
    case Fork(ok) =>
      if !c.Forks() then s.(parent := Starting)
      else if ok then s.(parent := Starting, child := Sleeping)
      else s.(parent := ForkFailed)
    case Start(ok) =>
      if !c.hasCommand then s.(parent := Returned)
      else if ok then s.(parent := Became)
      else s.(parent := if s.child == NotForked then Restoring else Killing)
    case Kill => s.(parent := Waiting, signalled := true)
    case Reap => s.(parent := Restoring)
    case Restore => s.(parent := Failed, files := CleanedFiles(c.q, s.files))
    case Wake => s.(child := Awake)
    case CleanUp => s.(child := CleanedUp, files := CleanedFiles(c.q, s.files))
    case Exit => s.(child := Gone(true))
    case Die => s.(child := Gone(s.child == CleanedUp))
  }

  ghost predicate Next(c: Setup, s: State, t: State) {
    exists a :: Enabled(c, s, a) && TargetThere(c, s) && t == Apply(c, s, a)
  }

  predicate Init(c: Setup, s: State) {
    s.parent == Copying && s.child == NotForked && !s.signalled && c.Fits(s.files)
  }

  ghost predicate Run(c: Setup, run: seq<State>) {
    run != [] && Init(c, run[0]) && forall i | 0 <= i < |run| - 1 :: Next(c, run[i], run[i + 1])
  }

  ghost predicate Finished(c: Setup, s: State) {
    forall a :: !Enabled(c, s, a)
  }

  // ---------------------------------------------------------------------------
  // What is in the files at each point
  // ---------------------------------------------------------------------------

  /** With the cleanup done: the backup is gone and all else is as at the start, or the output file is gone. */
  function Restored(q: Request, before: Files): Files {
    match q.replaceFile
    case Some(f) => before - {Backup(f)}
    case None => if q.outputFile.Some? then before - {q.outputFile.value} else before
  }

  predicate CleanupDone(s: State) {
    s.child == CleanedUp || s.child == Gone(true) || s.parent == Failed
  }

  predicate PhasesOk(c: Setup, s: State) {
    && (s.parent in {Copying, Writing, Forking, ForkFailed} ==> s.child == NotForked)
    && (s.parent in {Starting, Became, Returned} ==> (s.child != NotForked <==> c.Forks()))
    && (s.parent in {Killing, Waiting} ==> s.child != NotForked)
    && (s.signalled <==> s.parent in {Waiting, Restoring, Failed} && s.child != NotForked)
    && (s.parent in {Restoring, Failed} ==> s.child == NotForked || s.child.Gone?)
    && (s.child.Gone? && !s.child.cleaned ==> s.signalled)
    && (s.parent == Returned ==> !c.hasCommand)
    && (s.parent in {Killing, Waiting, Restoring, Failed, Became} ==> c.hasCommand)
    && (s.parent == ForkFailed ==> c.Forks())
    && (s.child != NotForked ==> c.Forks())
  }

  predicate Inv(c: Setup, before: Files, s: State) {
    && c.Fits(before)
    && PhasesOk(c, s)
    && match s.parent
       case Copying => s.files == before
       case Writing =>
         s.files == (match c.q.replaceFile case Some(f) => before[Backup(f) := before[f]] case None => before)
       case _ => s.files == if CleanupDone(s) then Restored(c.q, before) else Written(c.q, before, c.text)
  }

  lemma BackupDiffers(f: string)
    ensures Backup(f) != f
  {
    assert |Backup(f)| == |f| + 3;
  }

  /** Cleaning up undoes the writing, and cleaning up twice is cleaning up once. */
  lemma CleanupUndoesWriting(q: Request, before: Files, text: string)
    requires q.replaceFile.Some? ==> q.replaceFile.value in before
    ensures CleanedFiles(q, Written(q, before, text)) == Restored(q, before)
    ensures CleanedFiles(q, Restored(q, before)) == Restored(q, before)
  {
    if q.replaceFile.Some? {
      BackupDiffers(q.replaceFile.value);
    }
  }

  lemma StepKeepsPhases(c: Setup, before: Files, s: State, a: Action)
    requires Inv(c, before, s) && Enabled(c, s, a)
    ensures TargetThere(c, s)
    ensures PhasesOk(c, Apply(c, s, a))
  {
    if s.parent == Writing && c.q.replaceFile.Some? { assert c.q.replaceFile.value in s.files; }
    match a
    case Copy => case Write => case Fork(_) => case Start(_) => case Kill => case Reap =>
    case Restore => case Wake => case CleanUp => case Exit => case Die =>
  }

  lemma StepKeepsInv(c: Setup, before: Files, s: State, a: Action)
    requires Inv(c, before, s) && Enabled(c, s, a) && TargetThere(c, s)
    ensures Inv(c, before, Apply(c, s, a))
  {
    StepKeepsPhases(c, before, s, a);
    CleanupUndoesWriting(c.q, before, c.text);
    match a
    case Copy => case Write => case Fork(_) => case Start(_) => case Kill => case Reap =>
    case Restore => case Wake => case CleanUp => case Exit => case Die =>
  }

  lemma {:induction false} RunKeepsInv(c: Setup, run: seq<State>, i: nat)
    requires Run(c, run) && i < |run|
    ensures Inv(c, run[0].files, run[i])
  {
    if i > 0 {
      RunKeepsInv(c, run, i - 1);
      assert Next(c, run[i - 1], run[i - 1 + 1]);
      var a :| Enabled(c, run[i - 1], a) && TargetThere(c, run[i - 1]) && run[i] == Apply(c, run[i - 1], a);
      StepKeepsInv(c, run[0].files, run[i - 1], a);
    }
  }

  /** Nothing is ever lost: at every point the original content is in the file or in its backup. */
  lemma OriginalAlwaysThere(c: Setup, run: seq<State>, i: nat)
    requires Run(c, run) && i < |run| && c.q.replaceFile.Some?
    ensures var f := c.q.replaceFile.value;
      var files := run[i].files;
      (f in files && files[f] == run[0].files[f]) || (Backup(f) in files && files[Backup(f)] == run[0].files[f])
  {
    RunKeepsInv(c, run, i);
    BackupDiffers(c.q.replaceFile.value);
  }

  // ---------------------------------------------------------------------------
  // Every run ends
  // ---------------------------------------------------------------------------

  function ParentLeft(p: Parent): nat {
    match p
    case Copying => 10 case Writing => 9 case Forking => 8 case Starting => 4
    case Killing => 3 case Waiting => 2 case Restoring => 1 case _ => 0
  }

  function ChildLeft(c: Child): nat {
    match c case NotForked => 0 case Sleeping => 3 case Awake => 2 case CleanedUp => 1 case Gone(_) => 0
  }

  function Left(s: State): nat { ParentLeft(s.parent) + ChildLeft(s.child) }

  lemma StepShortens(c: Setup, s: State, t: State)
    requires Next(c, s, t)
    ensures Left(t) < Left(s)
  {
    var a :| Enabled(c, s, a) && TargetThere(c, s) && t == Apply(c, s, a);
    match a
    case Copy => case Write => case Fork(_) => case Start(_) => case Kill => case Reap =>
    case Restore => case Wake => case CleanUp => case Exit => case Die =>
  }

  lemma {:induction false} RunShortens(c: Setup, run: seq<State>, i: nat)
    requires Run(c, run) && i < |run|
    ensures Left(run[i]) + i <= Left(run[0]) == 10
  {
    if i > 0 {
      RunShortens(c, run, i - 1);
      assert Next(c, run[i - 1], run[i - 1 + 1]);
      StepShortens(c, run[i - 1], run[i]);
    }
  }

  /** No interleaving takes more than ten steps. */
  lemma RunsEnd(c: Setup, run: seq<State>)
    requires Run(c, run)
    ensures |run| <= 11
  {
    RunShortens(c, run, |run| - 1);
  }

  /** The parent and the child never wait for each other: a run stops only with both of them done. */
  lemma FinishedMeansDone(c: Setup, before: Files, s: State)
    requires Inv(c, before, s)
    ensures Finished(c, s) <==>
      s.parent in {Returned, Became, Failed, ForkFailed} && (s.child == NotForked || s.child.Gone?)
  {
    if Finished(c, s) {
      assert !Enabled(c, s, Copy) && !Enabled(c, s, Write) && !Enabled(c, s, Fork(true)) && !Enabled(c, s, Kill);
      assert !Enabled(c, s, Start(true)) && !Enabled(c, s, Reap) && !Enabled(c, s, Restore);
      assert !Enabled(c, s, Wake) && !Enabled(c, s, CleanUp) && !Enabled(c, s, Exit);
    }
  }

  // ---------------------------------------------------------------------------
  // What is left when every process is done
  // ---------------------------------------------------------------------------

  /** Somebody cleans up: the child, unless forking it failed, or the parent, when the command did not start. */
  predicate SomebodyCleansUp(c: Setup, end: State) {
    (c.timeout > 0 && end.parent != ForkFailed) || end.parent == Failed
  }

  /** In every finished run the files are exactly restored if and only if somebody cleans up; otherwise they are
      exactly as written. */
  lemma FilesAtTheEnd(c: Setup, run: seq<State>)
    requires Run(c, run) && Finished(c, run[|run| - 1]) && c.WritesFile()
    ensures var before := run[0].files;
      var end := run[|run| - 1];
      end.files == if SomebodyCleansUp(c, end) then Restored(c.q, before) else Written(c.q, before, c.text)
    ensures run[|run| - 1].files == Restored(c.q, run[0].files) <==> SomebodyCleansUp(c, run[|run| - 1])
  {
    var end := run[|run| - 1];
    RunKeepsInv(c, run, |run| - 1);
    FinishedMeansDone(c, run[0].files, end);
    assert CleanupDone(end) <==> SomebodyCleansUp(c, end);
    WrittenIsNotRestored(c.q, run[0].files, c.text);
  }

  lemma WrittenIsNotRestored(q: Request, before: Files, text: string)
    requires q.replaceFile.Some? || q.outputFile.Some?
    requires q.replaceFile.Some? ==> q.replaceFile.value in before
    ensures Written(q, before, text) != Restored(q, before)
  {
    match q.replaceFile
    case Some(f) => BackupDiffers(f); assert Backup(f) in Written(q, before, text);
    case None => assert q.outputFile.value in Written(q, before, text);
  }

  /** Read out for the two kinds of target. */
  lemma RestoredFiles(c: Setup, run: seq<State>)
    requires Run(c, run) && Finished(c, run[|run| - 1]) && SomebodyCleansUp(c, run[|run| - 1])
    ensures var before := run[0].files;
      var after := run[|run| - 1].files;
      match c.q.replaceFile
      case Some(f) => f in after && after[f] == before[f] && Backup(f) !in after
      case None => c.q.outputFile.Some? ==> c.q.outputFile.value !in after
  {
    if c.WritesFile() {
      FilesAtTheEnd(c, run);
      if c.q.replaceFile.Some? { BackupDiffers(c.q.replaceFile.value); }
    }
  }

  // ---------------------------------------------------------------------------
  // When nobody cleans up
  // ---------------------------------------------------------------------------

  /** A failing fork leaves the secrets in the file, whatever the timeout asked for. */
  lemma FailedForkLeavesSecrets(q: Request, before: Files, text: string, timeout: nat) returns (run: seq<State>)
    requires !q.Conflicting() && q.replaceFile.Some? && q.replaceFile.value in before && timeout > 0
    ensures Run(Setup(q, text, timeout, true), run) && Finished(Setup(q, text, timeout, true), run[|run| - 1])
    ensures run[0].files == before && run[|run| - 1].parent == ForkFailed
    ensures q.replaceFile.value in run[|run| - 1].files && run[|run| - 1].files[q.replaceFile.value] == text
  {
    var c := Setup(q, text, timeout, true);
    var s0 := State(before, Copying, NotForked, false);
    var s1 := Apply(c, s0, Copy);
    var s2 := Apply(c, s1, Write);
    var s3 := Apply(c, s2, Fork(false));
    run := [s0, s1, s2, s3];
    assert Enabled(c, s0, Copy) && Enabled(c, s1, Write) && Enabled(c, s2, Fork(false));
  }
}
