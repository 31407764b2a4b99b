/**
 The daemon results read off the run itself: which calls returned what, in which order. The history
 fields of the lifecycle model are shown to say exactly this.
 */
module DaemonHistory {
  import opened Options
  import opened DaemonLifecycle

  // ---------------------------------------------------------------- reading a run

  /** `action` lets the call of `p` at `pc` return `reply`. */
  predicate Returns(w: World, action: Action, p: Proc, pc: Pc, reply: Reply) {
    action == Step(p, reply) && p in w.procs && w.procs[p].pc == pc && Possible(w, pc, reply)
  }

  predicate Saves(w: World, action: Action, p: Proc) {
    Returns(w, action, p, SaveSettings, Ok)
  }

  predicate Launches(w: World, action: Action, p: Proc) {
    Returns(w, action, p, LaunchBackend, Ok)
  }

  /** `p` learns that no managed backend is running, or stops it. */
  predicate Clears(w: World, action: Action, p: Proc) {
    Returns(w, action, p, CheckBackend, No) || Returns(w, action, p, RecheckBackend, No) || Returns(w, action, p, StopBackend, Ok)
  }

  predicate FindsBackend(w: World, action: Action, p: Proc) {
    Returns(w, action, p, CheckBackend, Yes) || Returns(w, action, p, RecheckBackend, Yes)
  }

  /** `p` has saved settings and has not launched since. */
  function SavedIn(w: World, actions: seq<Action>, p: Proc): bool {
    if actions == [] then false
    else
      var before, action := actions[..|actions| - 1], actions[|actions| - 1];
      var at := Run(w, before);
      if Saves(at, action, p) then true else if Launches(at, action, p) then false else SavedIn(w, before, p)
  }

  /** `p` has last seen no managed backend, or has stopped it, and has not launched since. */
  function ClearedIn(w: World, actions: seq<Action>, p: Proc): bool {
    if actions == [] then false
    else
      var before, action := actions[..|actions| - 1], actions[|actions| - 1];
      var at := Run(w, before);
      if Clears(at, action, p) then true
      else if Launches(at, action, p) || FindsBackend(at, action, p) then false
      else ClearedIn(w, before, p)
  }

  predicate WritesSettings(op: Op) {
    op.SetRemoteControl? || op.Bootstrap?
  }

  /** `action` ends the operation of its process in failure, by an error or a crash. */
  predicate Fails(w: World, action: Action) {
    && (action.Step? || action.Crash?) && action.proc in w.procs && !w.procs[action.proc].pc.Done?
    && action.proc in Next(w, action).procs && Next(w, action).procs[action.proc].pc == Done(Failed)
  }

  /** The operation that ends is a set or a bootstrap. */
  predicate Breaks(w: World, action: Action) {
    Fails(w, action) && WritesSettings(Next(w, action).procs[action.proc].op)
  }

  /** Some process launches a backend. */
  predicate AnyLaunch(w: World, action: Action) {
    action.Step? && Launches(w, action, action.proc)
  }

  /** A set or bootstrap has broken off between its save and its launch, and nothing has launched since. */
  function BrokenOff(w: World, actions: seq<Action>): bool {
    if actions == [] then false
    else
      var before, action := actions[..|actions| - 1], actions[|actions| - 1];
      var at := Run(w, before);
      if AnyLaunch(at, action) then false
      else if Breaks(at, action) && SavedIn(w, before, action.proc) then true
      else BrokenOff(w, before)
  }

  // ---------------------------------------------------------------- one process

  /** The history fields of a process say what it has done. */
  predicate Tells(l: Local, saved: bool, cleared: bool) {
    && (l.dirty <==> saved && WritesSettings(l.op) && l.pc != Done(Succeeded))
    && (saved ==> WritesSettings(l.op) || l.op.Start?)
    && (l.clear <==> cleared)
  }

  function SavedNext(pc: Pc, reply: Reply, saved: bool): bool {
    if pc.SaveSettings? && reply.Ok? then true else if pc.LaunchBackend? && reply.Ok? then false else saved
  }

  function ClearedNext(pc: Pc, reply: Reply, cleared: bool): bool {
    if ((pc.CheckBackend? || pc.RecheckBackend?) && reply.No?) || (pc.StopBackend? && reply.Ok?) then true
    else if (pc.LaunchBackend? && reply.Ok?) || ((pc.CheckBackend? || pc.RecheckBackend?) && reply.Yes?) then false
    else cleared
  }

  lemma TellsFinish(l: Local, saved: bool, cleared: bool)
    requires (saved ==> WritesSettings(l.op) || l.op.Start?) && (l.clear <==> cleared)
    ensures Tells(Finish(l), saved, cleared)
  {
  }

  lemma TellsLoad(l: Local, file: bool, saved: bool, cleared: bool)
    requires Tells(l, saved, cleared) && l.pc.LoadSettings?
    ensures Tells(AfterLoad(l, file), saved, cleared)
  {
  }

  /** A process that goes on to another call, or fails, tells the same. */
  lemma TellsElsewhere(l: Local, pc: Pc, saved: bool, cleared: bool)
    requires Tells(l, saved, cleared) && !l.pc.Done? && pc != Done(Succeeded)
    ensures Tells(l.(pc := pc), saved, cleared)
  {
  }

  lemma TellsCompare(l: Local, saved: bool, cleared: bool)
    requires Tells(l, saved, cleared) && !l.pc.Done?
    ensures Tells(CompareSetting(l), saved, cleared)
  {
    TellsFinish(l, saved, cleared);
    TellsElsewhere(l, AwaitReady, saved, cleared);
    TellsElsewhere(l, SaveSettings, saved, cleared);
  }

  lemma TellsDecision(l: Local, decision: RestartDecision, saved: bool, cleared: bool)
    requires Tells(l, saved, cleared) && !l.pc.Done?
    ensures Tells(FollowDecision(l, decision), saved, cleared)
  {
    TellsFinish(l, saved, cleared);
    TellsElsewhere(l, StopBackend, saved, cleared);
  }

  lemma TellsProbe(l: Local, yes: bool, saved: bool, cleared: bool)
    requires Tells(l, saved, cleared) && l.pc.ProbeSocket?
    ensures Tells(AfterProbe(l, yes), saved, cleared)
  {
    var noted := l.(answered := yes);
    assert Tells(noted, saved, cleared);
    TellsFinish(noted, saved, cleared);
    TellsElsewhere(noted, Done(Failed), saved, cleared);
    match l.op {
      case SetRemoteControl(_) => TellsCompare(noted, saved, cleared);
      case TryRestartIfRunning(always, _) =>
        TellsDecision(noted, Decide(always, false, false), saved, cleared);
        TellsElsewhere(noted, CompareVersion, saved, cleared);
      case _ =>
        TellsElsewhere(noted, CheckBackend, saved, cleared);
        TellsElsewhere(noted, EnsureBinary, saved, cleared);
        TellsElsewhere(noted, SaveSettings, saved, cleared);
    }
  }

  lemma TellsCheck(l: Local, yes: bool, saved: bool, cleared: bool)
    requires Tells(l, saved, cleared) && l.pc.CheckBackend?
    ensures Tells(AfterCheck(l, yes), saved, !yes)
  {
    var noted := l.(found := yes, clear := !yes);
    TellsFinish(noted, saved, !yes);
    TellsElsewhere(noted, Done(Failed), saved, !yes);
    if l.op.SetRemoteControl? {
      TellsCompare(noted, saved, !yes);
    }
  }

  lemma TellsSave(l: Local, saved: bool, cleared: bool)
    requires Tells(l, saved, cleared) && l.pc.SaveSettings? && FlowOk(l)
    ensures Tells(AfterSave(l), true, cleared)
  {
  }

  lemma TellsReady(l: Local, saved: bool, cleared: bool)
    requires Tells(l, saved, cleared) && l.pc.AwaitReady?
    ensures Tells(AfterReady(l), saved, cleared)
  {
    TellsFinish(l, saved, cleared);
  }

  lemma TellsBootstrapped(l: Local, yes: bool, saved: bool, cleared: bool)
    requires Tells(l, saved, cleared) && l.pc.CheckBootstrapped? && FlowOk(l)
    ensures Tells(AfterBootstrapped(l, yes), saved, cleared)
  {
  }

  lemma TellsVersion(l: Local, same: bool, saved: bool, cleared: bool)
    requires Tells(l, saved, cleared) && l.pc.CompareVersion?
    ensures Tells(AfterVersion(l, same), saved, cleared)
  {
    TellsFinish(l, saved, cleared);
  }

  lemma TellsRest(l: Local, yes: bool, saved: bool, cleared: bool)
    requires Tells(l, saved, cleared) && Rest(l.pc)
    ensures Tells(AfterRest(l, yes), saved, cleared)
  {
    TellsFinish(l, saved, cleared);
  }

  lemma TellsStop(l: Local, saved: bool, cleared: bool)
    requires Tells(l, saved, cleared) && l.pc.StopBackend?
    ensures Tells(AfterStop(l), saved, true)
  {
    TellsFinish(l.(clear := true), saved, true);
  }

  lemma TellsOthers(l: Local, yes: bool, saved: bool, cleared: bool)
    requires Tells(l, saved, cleared)
    ensures l.pc.EnsureBinary? ==> Tells(AfterBinary(l), saved, cleared)
    ensures l.pc.RecheckBackend? ==> Tells(AfterRecheck(l, yes), saved, !yes)
    ensures l.pc.LaunchBackend? ==> Tells(AfterLaunch(l), false, false)
  {
  }

  /** The replies `Possible` allows, as far as the history looks at them. */
  predicate Answers(pc: Pc, reply: Reply) {
    && (pc.CheckBackend? || pc.RecheckBackend? ==> !reply.Ok?)
    && (pc.SaveSettings? || pc.StopBackend? || pc.LaunchBackend? ==> reply.Err? || reply.Ok?)
  }

  lemma TellsAdvance(l: Local, file: bool, reply: Reply, saved: bool, cleared: bool)
    requires FlowOk(l) && InSection(l) && Tells(l, saved, cleared) && Answers(l.pc, reply)
    ensures Tells(Advance(l, file, reply), SavedNext(l.pc, reply, saved), ClearedNext(l.pc, reply, cleared))
  {
    if reply.Err? && !l.pc.ProbeSocket? {
      assert Tells(Fail(l), saved, cleared);
    } else {
      match l.pc {
        case LoadSettings => TellsLoad(l, file, saved, cleared);
        case ProbeSocket => TellsProbe(l, reply.Yes?, saved, cleared);
        case CheckBackend => TellsCheck(l, reply.Yes?, saved, cleared);
        case SaveSettings => TellsSave(l, saved, cleared);
        case StopBackend => TellsStop(l, saved, cleared);
        case AwaitReady => TellsReady(l, saved, cleared);
        case CheckBootstrapped => TellsBootstrapped(l, reply.Yes?, saved, cleared);
        case CompareVersion => TellsVersion(l, reply.Yes?, saved, cleared);
        case EnsureBinary => TellsOthers(l, reply.Yes?, saved, cleared);
        case RecheckBackend => TellsOthers(l, reply.Yes?, saved, cleared);
        case LaunchBackend => TellsOthers(l, reply.Yes?, saved, cleared);
        case _ => TellsRest(l, reply.Yes?, saved, cleared);
      }
    }
  }

  // ---------------------------------------------------------------- one step

  /** What the step of another process leaves of `p`. */
  lemma OthersStep(w: World, p: Proc, action: Action)
    requires p in w.procs && !((action.Step? || action.Crash?) && action.proc == p)
    ensures p in Next(w, action).procs && Next(w, action).procs[p] == w.procs[p]
  {
    if action.Step? && action.proc in w.procs {
      var q := action.proc;
      if InSection(w.procs[q]) && Possible(w, w.procs[q].pc, action.reply) {
        OthersTurn(w, p, q, action.reply, |w.log|);
      }
    }
  }

  lemma OwnStep(w: World, p: Proc, reply: Reply)
    requires p in w.procs && InSection(w.procs[p]) && Possible(w, w.procs[p].pc, reply)
    ensures
      var l, after := w.procs[p], Turn(w, p, reply);
      && p in after.procs
      && after.procs[p] == Advance(l, Called(w, p, l, reply).saved, reply)
  {
    var l := w.procs[p];
    TurnIs(w, p, reply);
    var called := Called(w, p, l, reply);
    ContinueFrame(called, p, Advance(l, called.saved, reply));
  }

  lemma PossibleAnswers(w: World, pc: Pc, reply: Reply)
    requires Possible(w, pc, reply)
    ensures Answers(pc, reply)
  {
  }

  lemma AcquireTells(w: World, p: Proc, reply: Reply, saved: bool, cleared: bool)
    requires p in w.procs && w.procs[p].pc.AcquireLock? && FlowOk(w.procs[p]) && Tells(w.procs[p], saved, cleared)
    ensures
      var after := TryAcquire(w, p, w.procs[p], reply).procs;
      p in after && Tells(after[p], saved, cleared)
  {
    var l := w.procs[p];
    TellsElsewhere(l, Done(Failed), saved, cleared);
    TellsElsewhere(l, Done(Busy), saved, cleared);
    TellsEnter(l, saved, cleared);
  }

  lemma TellsEnter(l: Local, saved: bool, cleared: bool)
    requires Tells(l, saved, cleared) && l.pc.AcquireLock?
    ensures Tells(Enter(l), saved, cleared)
  {
  }

  /** The step `action` is a call of `p` that returns, or a poll of the lock. */
  predicate OwnReturn(w: World, action: Action, p: Proc) {
    action.Step? && action.proc == p && p in w.procs && Possible(w, w.procs[p].pc, action.reply)
  }

  lemma SavedFlag(w0: World, actions: seq<Action>, action: Action, p: Proc)
    ensures
      var w, saved := Run(w0, actions), SavedIn(w0, actions, p);
      SavedIn(w0, actions + [action], p) == if OwnReturn(w, action, p) then SavedNext(w.procs[p].pc, action.reply, saved) else saved
  {
    assert (actions + [action])[..|actions|] == actions;
  }

  lemma ClearedFlag(w0: World, actions: seq<Action>, action: Action, p: Proc)
    ensures
      var w, cleared := Run(w0, actions), ClearedIn(w0, actions, p);
      ClearedIn(w0, actions + [action], p) ==
      if OwnReturn(w, action, p) then ClearedNext(w.procs[p].pc, action.reply, cleared) else cleared
  {
    assert (actions + [action])[..|actions|] == actions;
  }

  /** The flags of the run after one more action, seen from the local state before it. */
  lemma FlagsStep(w0: World, actions: seq<Action>, action: Action, p: Proc)
    ensures
      var w := Run(w0, actions);
      var own := action.Step? && action.proc == p && p in w.procs && Possible(w, w.procs[p].pc, action.reply);
      && SavedIn(w0, actions + [action], p)
         == (if own then SavedNext(w.procs[p].pc, action.reply, SavedIn(w0, actions, p)) else SavedIn(w0, actions, p))
      && ClearedIn(w0, actions + [action], p)
         == (if own then ClearedNext(w.procs[p].pc, action.reply, ClearedIn(w0, actions, p)) else ClearedIn(w0, actions, p))
  {
    SavedFlag(w0, actions, action, p);
    ClearedFlag(w0, actions, action, p);
  }

  lemma QuietFlags(pc: Pc, reply: Reply, saved: bool, cleared: bool)
    requires pc.AcquireLock? || pc.Done?
    ensures SavedNext(pc, reply, saved) == saved && ClearedNext(pc, reply, cleared) == cleared
  {
  }

  /** In every reachable state the history fields of a process say what it has done in the run. */
  lemma {:induction false} HistoryTells(setting: bool, actions: seq<Action>, p: Proc)
    ensures
      var w0 := InitialWorld(setting);
      var w := Run(w0, actions);
      if p in w.procs then Tells(w.procs[p], SavedIn(w0, actions, p), ClearedIn(w0, actions, p))
      else !SavedIn(w0, actions, p) && !ClearedIn(w0, actions, p)
  {
    if actions != [] {
      var w0, n := InitialWorld(setting), |actions| - 1;
      var before, action := actions[..n], actions[n];
      assert actions == before + [action];
      HistoryTells(setting, before, p);
      RunPreserves(w0, before);
      RunSnoc(w0, before, action);
      FlagsStep(w0, before, action, p);
      StepTells(Run(w0, before), action, p, SavedIn(w0, before, p), ClearedIn(w0, before, p));
    }
  }

  lemma StepTells(w: World, action: Action, p: Proc, saved: bool, cleared: bool)
    requires Inv(w)
    requires if p in w.procs then Tells(w.procs[p], saved, cleared) else !saved && !cleared
    ensures
      var after := Next(w, action);
      var own := action.Step? && action.proc == p && p in w.procs && Possible(w, w.procs[p].pc, action.reply);
      var nowSaved := if own then SavedNext(w.procs[p].pc, action.reply, saved) else saved;
      var nowCleared := if own then ClearedNext(w.procs[p].pc, action.reply, cleared) else cleared;
      if p in after.procs then Tells(after.procs[p], nowSaved, nowCleared) else !nowSaved && !nowCleared
  {
    if p !in w.procs {
      NewProc(w, action, p);
    } else if action.Step? && action.proc == p {
      assert LocalOk(w, p);
      OwnTells(w, p, action.reply, saved, cleared);
    } else if action.Crash? && action.proc == p {
      CrashTells(w, p, saved, cleared);
    } else {
      OthersStep(w, p, action);
    }
  }

  lemma NewProc(w: World, action: Action, p: Proc)
    requires p !in w.procs
    ensures p in Next(w, action).procs ==> Tells(Next(w, action).procs[p], false, false)
  {
    if action.Step? && action.proc in w.procs {
      ProcsStay(w, action.proc, action.reply);
    }
  }

  lemma ProcsStay(w: World, q: Proc, reply: Reply)
    requires q in w.procs
    ensures Turn(w, q, reply).procs.Keys == w.procs.Keys
  {
    if InSection(w.procs[q]) && Possible(w, w.procs[q].pc, reply) {
      var l := w.procs[q];
      TurnIs(w, q, reply);
      var called := Called(w, q, l, reply);
      ContinueFrame(called, q, Advance(l, called.saved, reply));
      AffectFrame(Logged(w, q, l), l);
    }
  }

  lemma CrashTells(w: World, p: Proc, saved: bool, cleared: bool)
    requires p in w.procs && Tells(w.procs[p], saved, cleared)
    ensures p in Next(w, Crash(p)).procs && Tells(Next(w, Crash(p)).procs[p], saved, cleared)
  {
    if !w.procs[p].pc.Done? {
      ContinueFrame(w, p, Fail(w.procs[p]));
    }
  }

  lemma OwnTells(w: World, p: Proc, reply: Reply, saved: bool, cleared: bool)
    requires p in w.procs && FlowOk(w.procs[p]) && Tells(w.procs[p], saved, cleared)
    ensures
      var after := Turn(w, p, reply).procs;
      var own := Possible(w, w.procs[p].pc, reply);
      && p in after
      && Tells(after[p], if own then SavedNext(w.procs[p].pc, reply, saved) else saved,
               if own then ClearedNext(w.procs[p].pc, reply, cleared) else cleared)
  {
    var l := w.procs[p];
    if l.pc.AcquireLock? {
      AcquireTells(w, p, reply, saved, cleared);
      QuietFlags(l.pc, reply, saved, cleared);
    } else if l.pc.Done? {
      QuietFlags(l.pc, reply, saved, cleared);
    } else if Possible(w, l.pc, reply) {
      OwnStep(w, p, reply);
      PossibleAnswers(w, l.pc, reply);
      TellsAdvance(l, Called(w, p, l, reply).saved, reply, saved, cleared);
    }
  }

  // ---------------------------------------------------------------- what `stale` means

  /** The stale mark after one action: a launch clears it, a failure after a save and before a launch sets it. */
  predicate Marks(w: World, action: Action, after: World) {
    if AnyLaunch(w, action) then !after.stale
    else after.stale <==> w.stale || (Fails(w, action) && action.proc in after.procs && after.procs[action.proc].dirty)
  }

  lemma StaleStep(w: World, action: Action)
    requires Inv(w)
    ensures Marks(w, action, Next(w, action))
  {
    match action {
      case Step(p, reply) =>
        if p in w.procs {
          assert LocalOk(w, p);
          StaleTurn(w, p, reply);
        }
      case Crash(p) =>
        if p in w.procs && !w.procs[p].pc.Done? {
          ContinueFrame(w, p, Fail(w.procs[p]));
          StaleContinue(w, p, Fail(w.procs[p]));
        }
      case _ =>
    }
  }

  lemma StaleTurn(w: World, p: Proc, reply: Reply)
    requires p in w.procs && FlowOk(w.procs[p])
    ensures Marks(w, Step(p, reply), Turn(w, p, reply))
  {
    var l := w.procs[p];
    if l.pc.AcquireLock? {
      StaleAcquire(w, p, reply);
    } else if InSection(l) && Possible(w, l.pc, reply) {
      OwnStep(w, p, reply);
      StaleSection(w, p, reply, Advance(l, Called(w, p, l, reply).saved, reply));
    }
  }

  lemma StaleAcquire(w: World, p: Proc, reply: Reply)
    requires p in w.procs && FlowOk(w.procs[p]) && w.procs[p].pc.AcquireLock?
    ensures
      var after := TryAcquire(w, p, w.procs[p], reply);
      && p in after.procs && after.stale == w.stale
      && (after.procs[p].pc.Done? ==> !after.procs[p].dirty)
  {
  }

  lemma CalledStale(w: World, p: Proc, l: Local, reply: Reply)
    ensures Called(w, p, l, reply).stale == if l.pc.LaunchBackend? && !reply.Err? then false else w.stale
  {
  }

  lemma StaleContinue(w: World, p: Proc, next: Local)
    ensures Continue(w, p, next).stale == (w.stale || (next.pc == Done(Failed) && next.dirty))
  {
  }

  lemma LaunchGoesOn(l: Local, file: bool, reply: Reply)
    requires l.pc.LaunchBackend? && !reply.Err?
    ensures !Advance(l, file, reply).pc.Done?
  {
    assert Advance(l, file, reply) == AfterLaunch(l);
  }

  lemma StaleSection(w: World, p: Proc, reply: Reply, next: Local)
    requires p in w.procs && InSection(w.procs[p]) && Possible(w, w.procs[p].pc, reply)
    requires next == Advance(w.procs[p], Called(w, p, w.procs[p], reply).saved, reply)
    requires p in Turn(w, p, reply).procs && Turn(w, p, reply).procs[p] == next
    ensures Marks(w, Step(p, reply), Turn(w, p, reply))
  {
    var l, called := w.procs[p], Called(w, p, w.procs[p], reply);
    TurnIs(w, p, reply);
    CalledStale(w, p, l, reply);
    StaleContinue(called, p, next);
    if l.pc.LaunchBackend? && !reply.Err? {
      LaunchGoesOn(l, called.saved, reply);
      PossibleAnswers(w, l.pc, reply);
    }
  }

  /** A save or a launch that returns does not end its operation in failure. */
  lemma GoesOn(w: World, p: Proc)
    requires p in w.procs && (w.procs[p].pc.SaveSettings? || w.procs[p].pc.LaunchBackend?)
    ensures !Fails(w, Step(p, Ok))
  {
    var l := w.procs[p];
    if Possible(w, l.pc, Ok) {
      OwnStep(w, p, Ok);
      if l.pc.LaunchBackend? {
        LaunchGoesOn(l, Called(w, p, l, Ok).saved, Ok);
      } else {
        SaveGoesOn(l, Called(w, p, l, Ok).saved);
      }
    }
  }

  lemma SaveGoesOn(l: Local, file: bool)
    requires l.pc.SaveSettings?
    ensures Advance(l, file, Ok).pc != Done(Failed)
  {
    assert Advance(l, file, Ok) == AfterSave(l);
  }

  /** The stale mark says exactly that a set or bootstrap has broken off between its save and its launch,
      with no launch since. */
  lemma {:induction false} StaleMeans(setting: bool, actions: seq<Action>)
    ensures Run(InitialWorld(setting), actions).stale == BrokenOff(InitialWorld(setting), actions)
  {
    if actions != [] {
      var w0, n := InitialWorld(setting), |actions| - 1;
      var before, action := actions[..n], actions[n];
      var w := Run(w0, before);
      assert actions == before + [action];
      StaleMeans(setting, before);
      RunPreserves(w0, before);
      RunSnoc(w0, before, action);
      StaleStep(w, action);
      if Fails(w, action) {
        HistoryTells(setting, actions, action.proc);
        FailureFlags(w0, before, action);
      }
    }
  }

  lemma FailureFlags(w0: World, before: seq<Action>, action: Action)
    requires Fails(Run(w0, before), action)
    ensures SavedIn(w0, before + [action], action.proc) == SavedIn(w0, before, action.proc)
  {
    var w, p := Run(w0, before), action.proc;
    assert (before + [action])[..|before|] == before;
    if Saves(w, action, p) || Launches(w, action, p) {
      GoesOn(w, p);
    }
  }

  // ---------------------------------------------------------------- positions in the run

  /** `p` returns from its save at position `j`, and from no launch after that. */
  predicate SavedAt(w0: World, actions: seq<Action>, p: Proc, j: nat) {
    && j < |actions| && Saves(Run(w0, actions[..j]), actions[j], p)
    && forall k :: j < k < |actions| ==> !Launches(Run(w0, actions[..k]), actions[k], p)
  }

  lemma {:induction false} SavedSomewhere(w0: World, actions: seq<Action>, p: Proc)
    requires SavedIn(w0, actions, p)
    ensures exists j :: SavedAt(w0, actions, p, j)
  {
    var n := |actions| - 1;
    if Saves(Run(w0, actions[..n]), actions[n], p) {
      assert SavedAt(w0, actions, p, n);
    } else {
      SavedSomewhere(w0, actions[..n], p);
      var j :| SavedAt(w0, actions[..n], p, j);
      SavedLater(w0, actions, p, j);
    }
  }

  lemma SavedLater(w0: World, actions: seq<Action>, p: Proc, j: nat)
    requires actions != []
    requires
      var n := |actions| - 1;
      SavedAt(w0, actions[..n], p, j) && !Launches(Run(w0, actions[..n]), actions[n], p)
    ensures SavedAt(w0, actions, p, j)
  {
    var n := |actions| - 1;
    assert actions[..n][..j] == actions[..j];
    forall k | j < k < |actions|
      ensures !Launches(Run(w0, actions[..k]), actions[k], p)
    {
      if k < n {
        assert actions[..n][..k] == actions[..k] && actions[..n][k] == actions[k];
      }
    }
  }

  /** A set or bootstrap ends in failure at position `i`, after its save and before its launch, and no
      launch succeeds after that. */
  ghost predicate BrokeAt(w0: World, actions: seq<Action>, i: nat) {
    && i < |actions| && Breaks(Run(w0, actions[..i]), actions[i])
    && (exists j :: SavedAt(w0, actions[..i], actions[i].proc, j))
    && forall k :: i < k < |actions| ==> !AnyLaunch(Run(w0, actions[..k]), actions[k])
  }

  lemma {:induction false} BrokeSomewhere(w0: World, actions: seq<Action>)
    requires BrokenOff(w0, actions)
    ensures exists i :: BrokeAt(w0, actions, i)
  {
    var n := |actions| - 1;
    var at := Run(w0, actions[..n]);
    if Breaks(at, actions[n]) && SavedIn(w0, actions[..n], actions[n].proc) {
      SavedSomewhere(w0, actions[..n], actions[n].proc);
      assert BrokeAt(w0, actions, n);
    } else {
      BrokeSomewhere(w0, actions[..n]);
      var i :| BrokeAt(w0, actions[..n], i);
      BrokeLater(w0, actions, i);
    }
  }

  lemma BrokeLater(w0: World, actions: seq<Action>, i: nat)
    requires actions != []
    requires
      var n := |actions| - 1;
      BrokeAt(w0, actions[..n], i) && !AnyLaunch(Run(w0, actions[..n]), actions[n])
    ensures BrokeAt(w0, actions, i)
  {
    var n := |actions| - 1;
    assert actions[..n][..i] == actions[..i];
    forall k | i < k < |actions|
      ensures !AnyLaunch(Run(w0, actions[..k]), actions[k])
    {
      if k < n {
        assert actions[..n][..k] == actions[..k] && actions[..n][k] == actions[k];
      }
    }
  }

  lemma {:induction false} SavedFromPosition(w0: World, actions: seq<Action>, p: Proc, j: nat)
    requires SavedAt(w0, actions, p, j)
    ensures SavedIn(w0, actions, p)
  {
    var n := |actions| - 1;
    if j < n {
      SavedBefore(w0, actions, p, j);
      SavedFromPosition(w0, actions[..n], p, j);
    }
  }

  lemma SavedBefore(w0: World, actions: seq<Action>, p: Proc, j: nat)
    requires SavedAt(w0, actions, p, j) && j < |actions| - 1
    ensures SavedAt(w0, actions[..|actions| - 1], p, j)
  {
    var before := actions[..|actions| - 1];
    assert before[..j] == actions[..j];
    forall k | j < k < |before|
      ensures !Launches(Run(w0, before[..k]), before[k], p)
    {
      assert before[..k] == actions[..k] && before[k] == actions[k];
    }
  }

  lemma BrokeBefore(w0: World, actions: seq<Action>, i: nat)
    requires BrokeAt(w0, actions, i) && i < |actions| - 1
    ensures BrokeAt(w0, actions[..|actions| - 1], i)
  {
    var before := actions[..|actions| - 1];
    assert before[..i] == actions[..i];
    forall k | i < k < |before|
      ensures !AnyLaunch(Run(w0, before[..k]), before[k])
    {
      assert before[..k] == actions[..k] && before[k] == actions[k];
    }
  }

  lemma {:induction false} BrokenFromPosition(w0: World, actions: seq<Action>, i: nat)
    requires BrokeAt(w0, actions, i)
    ensures BrokenOff(w0, actions)
  {
    var n := |actions| - 1;
    if i < n {
      BrokeBefore(w0, actions, i);
      BrokenFromPosition(w0, actions[..n], i);
    } else {
      BrokenHere(w0, actions);
    }
  }

  lemma BrokenHere(w0: World, actions: seq<Action>)
    requires actions != [] && BrokeAt(w0, actions, |actions| - 1)
    ensures BrokenOff(w0, actions)
  {
    var n := |actions| - 1;
    var j :| SavedAt(w0, actions[..n], actions[n].proc, j);
    SavedFromPosition(w0, actions[..n], actions[n].proc, j);
    FailureIsNoLaunch(Run(w0, actions[..n]), actions[n]);
  }

  lemma FailureIsNoLaunch(w: World, action: Action)
    requires Fails(w, action)
    ensures !AnyLaunch(w, action)
  {
    if action.Step? && w.procs[action.proc].pc.LaunchBackend? {
      GoesOn(w, action.proc);
    }
  }

  /** `BrokenOff` speaks of positions in the run. */
  lemma BrokenOffMeans(w0: World, actions: seq<Action>)
    ensures BrokenOff(w0, actions) <==> exists i :: BrokeAt(w0, actions, i)
  {
    if BrokenOff(w0, actions) {
      BrokeSomewhere(w0, actions);
    }
    forall i | BrokeAt(w0, actions, i)
      ensures BrokenOff(w0, actions)
    {
      BrokenFromPosition(w0, actions, i);
    }
  }

  // ---------------------------------------------------------------- main results

  /** Between critical sections, a running managed backend's launch flag differs from the saved setting only
      if, at some earlier point of the run, a set or bootstrap failed or crashed after its save had
      returned and before its launch had, and no launch has succeeded since. */
  lemma LaunchFlagAgrees(setting: bool, actions: seq<Action>)
    ensures
      var w := Run(InitialWorld(setting), actions);
      w.holder.None? && w.managed.Some? && w.managed.value != w.saved ==>
        exists i :: BrokeAt(InitialWorld(setting), actions, i)
  {
    RunPreserves(InitialWorld(setting), actions);
    StaleMeans(setting, actions);
    var w := Run(InitialWorld(setting), actions);
    BrokenOffMeans(InitialWorld(setting), actions);
  }

  /** The calls that change shared state need the lock; a launch also needs that the same critical section
      saw no managed backend or stopped it, and then none is running. */
  predicate Guarded(w0: World, actions: seq<Action>, p: Proc) {
    var w := Run(w0, actions);
    p in w.procs ==>
      && (EffectOf(w.procs[p].pc).Some? ==> w.holder == Some(p))
      && (w.procs[p].pc.LaunchBackend? ==> ClearedIn(w0, actions, p) && w.managed.None?)
  }

  lemma CallsAreGuarded(setting: bool, actions: seq<Action>, p: Proc)
    ensures Guarded(InitialWorld(setting), actions, p)
  {
    RunPreserves(InitialWorld(setting), actions);
    HistoryTells(setting, actions, p);
    var w := Run(InitialWorld(setting), actions);
    if p in w.procs {
      assert LocalOk(w, p);
    }
  }

  /** Only these calls change what is saved and what is running: the settings by a save, the backend by a
      launch when none runs, or by a stop, each with the lock held; apart from that the backend can die. */
  lemma ChangesNeedTheLock(setting: bool, actions: seq<Action>, action: Action)
    ensures
      var w := Run(InitialWorld(setting), actions);
      var after := Next(w, action);
      && (after.saved != w.saved ==> action.Step? && Saves(w, action, action.proc) && w.holder == Some(action.proc))
      && (after.managed != w.managed && after.managed.Some? ==>
            action.Step? && Launches(w, action, action.proc) && w.holder == Some(action.proc) && w.managed.None?)
      && (after.managed != w.managed && after.managed.None? ==>
            || action.BackendDies?
            || (action.Step? && Returns(w, action, action.proc, StopBackend, Ok) && w.holder == Some(action.proc)))
  {
    var w := Run(InitialWorld(setting), actions);
    if action.Step? && action.proc in w.procs {
      CallsAreGuarded(setting, actions, action.proc);
      ChangesBy(w, action.proc, action.reply);
    }
  }

  lemma ChangesBy(w: World, p: Proc, reply: Reply)
    requires p in w.procs
    ensures
      var after := Turn(w, p, reply);
      && (after.saved != w.saved ==> Saves(w, Step(p, reply), p))
      && (after.managed != w.managed ==>
            if after.managed.Some? then Launches(w, Step(p, reply), p) && w.managed.None?
            else Returns(w, Step(p, reply), p, StopBackend, Ok))
  {
    var l := w.procs[p];
    if InSection(l) && Possible(w, l.pc, reply) {
      TurnIs(w, p, reply);
      ContinueKeeps(Called(w, p, l, reply), p, Advance(l, Called(w, p, l, reply).saved, reply));
      PossibleAnswers(w, l.pc, reply);
      if reply.Err? || !Changes(l.pc) {
        CalledQuietly(w, p, l, reply);
      } else {
        CalledChange(w, p, l, reply);
      }
    }
  }

  lemma ContinueKeeps(w: World, p: Proc, l: Local)
    ensures Continue(w, p, l).saved == w.saved && Continue(w, p, l).managed == w.managed
  {
  }

  // ---------------------------------------------------------------- what calls do, and what they tell

  /** What a call of `p` that returns success leaves behind. */
  predicate TakesEffect(w: World, action: Action, p: Proc, after: World) {
    && (Saves(w, action, p) ==>
          after.saved == if w.procs[p].op.SetRemoteControl? then w.procs[p].op.enabled else w.procs[p].settings)
    && (Returns(w, action, p, StopBackend, Ok) ==> after.managed.None?)
    && (Launches(w, action, p) && w.managed.None? ==> after.managed == Some(w.procs[p].settings))
    && (Returns(w, action, p, StopUpdater, Ok) ==> !after.updater)
    && (Returns(w, action, p, StartUpdater, Ok) ==> after.updater)
  }

  /** The updater starts and stops by these calls, with the lock held; apart from that it can die. */
  predicate UpdaterChanges(w: World, action: Action, after: World) {
    && (!w.updater && after.updater ==>
          action.Step? && Returns(w, action, action.proc, StartUpdater, Ok) && w.holder == Some(action.proc))
    && (w.updater && !after.updater ==>
          || action.UpdaterDies?
          || (action.Step? && Returns(w, action, action.proc, StopUpdater, Ok) && w.holder == Some(action.proc)))
  }

  lemma CalledUpdater(w: World, p: Proc, l: Local, reply: Reply)
    ensures
      Called(w, p, l, reply).updater ==
      if reply.Err? then w.updater else if l.pc.StartUpdater? then true else if l.pc.StopUpdater? then false else w.updater
  {
  }

  lemma TurnUpdater(w: World, p: Proc, reply: Reply)
    requires p in w.procs && InSection(w.procs[p]) && Possible(w, w.procs[p].pc, reply)
    ensures Turn(w, p, reply).updater == Called(w, p, w.procs[p], reply).updater
  {
    TurnIs(w, p, reply);
  }

  /** Over all runs: a call that returns success does what it says. */
  lemma CallsTakeEffect(setting: bool, actions: seq<Action>, action: Action, p: Proc)
    ensures
      var w := Run(InitialWorld(setting), actions);
      TakesEffect(w, action, p, Next(w, action))
  {
    var w := Run(InitialWorld(setting), actions);
    if action.Step? && action.proc == p && p in w.procs && InSection(w.procs[p]) && Possible(w, w.procs[p].pc, action.reply) {
      SectionTakesEffect(w, p, action.reply);
    }
  }

  lemma SectionTakesEffect(w: World, p: Proc, reply: Reply)
    requires p in w.procs && InSection(w.procs[p]) && Possible(w, w.procs[p].pc, reply)
    ensures TakesEffect(w, Step(p, reply), p, Turn(w, p, reply))
  {
    var l := w.procs[p];
    TurnIs(w, p, reply);
    ContinueKeeps(Called(w, p, l, reply), p, Advance(l, Called(w, p, l, reply).saved, reply));
    TurnUpdater(w, p, reply);
    CalledUpdater(w, p, l, reply);
    if !reply.Err? && Changes(l.pc) {
      CalledChange(w, p, l, reply);
    }
  }

  /** Over all runs: the updater starts and stops only by such calls, or dies. */
  lemma UpdaterNeedsTheLock(setting: bool, actions: seq<Action>, action: Action)
    ensures
      var w := Run(InitialWorld(setting), actions);
      UpdaterChanges(w, action, Next(w, action))
  {
    var w := Run(InitialWorld(setting), actions);
    if action.Step? && action.proc in w.procs {
      var p := action.proc;
      CallsAreGuarded(setting, actions, p);
      if InSection(w.procs[p]) && Possible(w, w.procs[p].pc, action.reply) {
        TurnUpdater(w, p, action.reply);
        CalledUpdater(w, p, w.procs[p], action.reply);
        assert w.procs[p].pc.StartUpdater? || w.procs[p].pc.StopUpdater? ==> EffectOf(w.procs[p].pc).Some?;
      }
    }
  }

  /** The answers a process gets are true when it gets them. */
  lemma AnswersAreTrue(w: World, action: Action, p: Proc)
    ensures Returns(w, action, p, CheckBackend, Yes) || Returns(w, action, p, RecheckBackend, Yes) ==> w.managed.Some?
    ensures Returns(w, action, p, CheckBackend, No) || Returns(w, action, p, RecheckBackend, No) ==> w.managed.None?
    ensures Returns(w, action, p, CheckUpdater, Yes) || Returns(w, action, p, CheckBootstrapped, Yes) ==> w.updater
    ensures Returns(w, action, p, CheckUpdater, No) || Returns(w, action, p, CheckBootstrapped, No) ==> !w.updater
    ensures Returns(w, action, p, ProbeSocket, Yes) ==> w.managed.Some? || w.unmanaged
    ensures Returns(w, action, p, ProbeSocket, No) || Returns(w, action, p, ProbeSocket, Err) ==> !w.unmanaged
  {
  }
}
