/**
 What the world is like at the moment a daemon operation succeeds, over all runs and interleavings: after a
 stop no managed backend is running, and after a set, a bootstrap or an ensure-started the wanted setting is
 on file.
 */
module DaemonEffects {
  import opened Options
  import opened DaemonLifecycle
  import opened DaemonHistory
  import opened DaemonScripts
  import opened DaemonOutcomes

  // ---------------------------------------------------------------- a stop leaves nothing running

  /** Every path of the script to success ends with no backend in sight. */
  predicate EndsCleared(script: Script, cleared: bool)
    decreases script
  {
    match script
    case Succeed => cleared
    case GiveUp => true
    case Must(call, next) => !Asks(call) && !call.ProbeSocket? && EndsCleared(next, ClearedNext(call, Ok, cleared))
    case Ask(call, ifYes, ifNo) =>
      Asks(call) && EndsCleared(ifYes, ClearedNext(call, Yes, cleared)) && EndsCleared(ifNo, ClearedNext(call, No, cleared))
    case Probe(ifAnswered, ifSilent) => EndsCleared(ifAnswered, cleared) && EndsCleared(ifSilent, cleared)
    case Load(ifEnabled, ifDisabled) => EndsCleared(ifEnabled, cleared) && EndsCleared(ifDisabled, cleared)
  }

  lemma StopEndsCleared(cleared: bool)
    ensures EndsCleared(StopScript(), cleared)
  {
    var stop, probe := Must(StopBackend, Succeed), Probe(GiveUp, Succeed);
    assert EndsCleared(stop, false) && EndsCleared(probe, true);
    CheckEndsCleared(stop, probe, cleared);
  }

  lemma CheckEndsCleared(ifYes: Script, ifNo: Script, cleared: bool)
    requires EndsCleared(ifYes, false) && EndsCleared(ifNo, true)
    ensures EndsCleared(Must(LoadSettings, Ask(CheckBackend, ifYes, ifNo)), cleared)
  {
    assert EndsCleared(Ask(CheckBackend, ifYes, ifNo), cleared);
  }

  lemma ResumeCleared(script: Script, cleared: bool, call: Returned)
    requires EndsCleared(script, cleared) && CallOf(script) == Some(call.pc) && Fits(call)
    ensures EndsCleared(Resume(script, call.reply, call.file), ClearedNext(call.pc, call.reply, cleared))
  {
  }

  /** Along a run of a stop, its script still ends cleared, from what the process has seen. */
  lemma {:induction false} StopStaysCleared(setting: bool, actions: seq<Action>, p: Proc)
    requires Begun(actions, p) == Some(Stop)
    ensures
      var w0 := InitialWorld(setting);
      EndsCleared(Follow(StopScript(), Made(w0, actions, p)), ClearedIn(w0, actions, p))
  {
    var w0, n := InitialWorld(setting), |actions| - 1;
    var before, action := actions[..n], actions[n];
    assert actions == before + [action];
    ReadingsStep(w0, before, action, p);
    FlagsStep(w0, before, action, p);
    AlwaysPlaced(setting, before, p);
    if Begun(before, p).None? {
      HistoryTells(setting, before, p);
      StopEndsCleared(false);
    } else {
      StopStaysCleared(setting, before, p);
      StopStep(w0, before, action, p);
    }
  }

  lemma StopStep(w0: World, before: seq<Action>, action: Action, p: Proc)
    requires Begun(before, p) == Some(Stop) && Placement(w0, before, p)
    requires EndsCleared(Follow(StopScript(), Made(w0, before, p)), ClearedIn(w0, before, p))
    ensures
      EndsCleared(Follow(StopScript(), Made(w0, before, p) + Makes(Run(w0, before), action, p)),
                  ClearedIn(w0, before + [action], p))
  {
    var w, calls, cleared := Run(w0, before), Made(w0, before, p), ClearedIn(w0, before, p);
    ClearedStep(w0, before, action, p);
    if Makes(w, action, p) == [] {
      assert calls + [] == calls;
    } else {
      ReadStanding(w.procs[p], Stop, calls, Crash(p) in before);
      CallCleared(calls, cleared, Makes(w, action, p)[0]);
      assert Makes(w, action, p) == [Makes(w, action, p)[0]];
    }
  }

  /** What `p` has seen of the backend changes with its calls only. */
  lemma ClearedStep(w0: World, before: seq<Action>, action: Action, p: Proc)
    ensures
      var made := Makes(Run(w0, before), action, p);
      && ClearedIn(w0, before + [action], p)
         == (if made == [] then ClearedIn(w0, before, p) else ClearedNext(made[0].pc, made[0].reply, ClearedIn(w0, before, p)))
      && (made != [] ==> Fits(made[0]))
  {
    var w := Run(w0, before);
    FlagsStep(w0, before, action, p);
    if action.Step? && action.proc == p && p in w.procs && Possible(w, w.procs[p].pc, action.reply) && !InSection(w.procs[p]) {
      QuietFlags(w.procs[p].pc, action.reply, SavedIn(w0, before, p), ClearedIn(w0, before, p));
    }
  }

  lemma CallCleared(calls: seq<Returned>, cleared: bool, call: Returned)
    requires EndsCleared(Follow(StopScript(), calls), cleared)
    requires CallOf(Follow(StopScript(), calls)) == Some(call.pc) && Fits(call)
    ensures EndsCleared(Follow(StopScript(), calls + [call]), ClearedNext(call.pc, call.reply, cleared))
  {
    FollowSnoc(StopScript(), calls, call);
    ResumeCleared(Follow(StopScript(), calls), cleared, call);
  }

  /** A stop that has succeeded last saw no managed backend, or stopped it. */
  lemma StopClears(setting: bool, actions: seq<Action>, p: Proc)
    requires
      var w := Run(InitialWorld(setting), actions);
      p in w.procs && w.procs[p].pc == Done(Succeeded) && Begun(actions, p) == Some(Stop)
    ensures ClearedIn(InitialWorld(setting), actions, p)
  {
    EveryProcessFollowsItsScript(setting, actions, p);
    StopStaysCleared(setting, actions, p);
  }

  /** When a call returns and its process has seen no backend or stopped it, none is running. */
  lemma ClearedIsVacant(setting: bool, before: seq<Action>, p: Proc, reply: Reply)
    requires
      var w := Run(InitialWorld(setting), before);
      p in w.procs && InSection(w.procs[p]) && Possible(w, w.procs[p].pc, reply)
    requires ClearedIn(InitialWorld(setting), before + [Step(p, reply)], p)
    ensures Turn(Run(InitialWorld(setting), before), p, reply).managed.None?
  {
    var w0, w := InitialWorld(setting), Run(InitialWorld(setting), before);
    var l := w.procs[p];
    RunPreserves(w0, before);
    assert LocalOk(w, p);
    HistoryTells(setting, before, p);
    FlagsStep(w0, before, Step(p, reply), p);
    VacantTurn(w, p, reply, ClearedIn(w0, before, p));
  }

  lemma VacantTurn(w: World, p: Proc, reply: Reply, cleared: bool)
    requires p in w.procs && InSection(w.procs[p]) && Possible(w, w.procs[p].pc, reply)
    requires (cleared ==> w.managed.None?) && ClearedNext(w.procs[p].pc, reply, cleared)
    ensures Turn(w, p, reply).managed.None?
  {
    ChangesBy(w, p, reply);
    var l := w.procs[p];
    if l.pc.StopBackend? && !cleared {
      TurnIs(w, p, reply);
      CalledChange(w, p, l, reply);
      ContinueKeeps(Called(w, p, l, reply), p, Advance(l, Called(w, p, l, reply).saved, reply));
    }
  }

  /** `action` ends the operation of `p` in success. */
  predicate Succeeds(w: World, action: Action, p: Proc) {
    && p in w.procs && !w.procs[p].pc.Done?
    && p in Next(w, action).procs && Next(w, action).procs[p].pc == Done(Succeeded)
  }

  lemma EnterIsInside(l: Local)
    ensures InSection(Enter(l))
  {
  }

  lemma LockIsNoSuccess(w: World, p: Proc, reply: Reply)
    requires p in w.procs && w.procs[p].pc.AcquireLock?
    ensures
      var after := TryAcquire(w, p, w.procs[p], reply).procs;
      p in after && after[p].pc != Done(Succeeded)
  {
    var l, after := w.procs[p], TryAcquire(w, p, w.procs[p], reply);
    if reply.Err? {
      assert after.procs[p] == l.(pc := Done(Failed));
    } else if w.holder.None? {
      EnterIsInside(l);
      assert after.procs[p] == Enter(l);
    } else if l.op.TryRestartIfRunning? {
      assert after.procs[p] == l.(pc := Done(Busy));
    }
  }

  lemma CrashIsNoSuccess(w: World, p: Proc)
    requires p in w.procs && !w.procs[p].pc.Done?
    ensures !Succeeds(w, Crash(p), p)
  {
    ContinueFrame(w, p, Fail(w.procs[p]));
  }

  /** Only a call that returns can end an operation in success. */
  lemma SuccessIsACall(w: World, action: Action, p: Proc)
    requires Succeeds(w, action, p)
    ensures action.Step? && action.proc == p && InSection(w.procs[p]) && Possible(w, w.procs[p].pc, action.reply)
  {
    if action.Step? && action.proc == p {
      if w.procs[p].pc.AcquireLock? {
        LockIsNoSuccess(w, p, action.reply);
      }
    } else if action == Crash(p) {
      CrashIsNoSuccess(w, p);
    } else {
      OthersStep(w, p, action);
    }
  }

  /** At the moment a stop succeeds, no managed backend is running. */
  lemma StopLeavesNothingRunning(setting: bool, before: seq<Action>, action: Action, p: Proc)
    requires Succeeds(Run(InitialWorld(setting), before), action, p) && Begun(before, p) == Some(Stop)
    ensures Next(Run(InitialWorld(setting), before), action).managed.None?
  {
    var w0 := InitialWorld(setting);
    SuccessIsACall(Run(w0, before), action, p);
    ReadingsStep(w0, before, action, p);
    StopClears(setting, before + [action], p);
    ClearedIsVacant(setting, before, p, action.reply);
  }

  // ---------------------------------------------------------------- the setting ends up on file

  /** The remote-control setting an operation is to leave on file. */
  function Aim(op: Op): Option<bool> {
    match op
    case SetRemoteControl(enabled) => Some(enabled)
    case Bootstrap(enabled) => Some(enabled)
    case EnsureRemoteControlStarted => Some(true)
    case _ => None
  }

  /** From a file that holds `file`, every path of the script to success ends with `wanted` on file, if its
      saves write that. */
  predicate EndsSaved(script: Script, file: bool, wanted: bool)
    decreases script
  {
    match script
    case Succeed => file == wanted
    case GiveUp => true
    case Must(call, next) => !Asks(call) && !call.ProbeSocket? && EndsSaved(next, if call.SaveSettings? then wanted else file, wanted)
    case Ask(call, ifYes, ifNo) => Asks(call) && EndsSaved(ifYes, file, wanted) && EndsSaved(ifNo, file, wanted)
    case Probe(ifAnswered, ifSilent) => EndsSaved(ifAnswered, file, wanted) && EndsSaved(ifSilent, file, wanted)
    case Load(ifEnabled, ifDisabled) => EndsSaved(if file then ifEnabled else ifDisabled, file, wanted)
  }

  lemma MustEndsSaved(call: Pc, next: Script, file: bool, wanted: bool)
    requires !Asks(call) && !call.ProbeSocket? && EndsSaved(next, if call.SaveSettings? then wanted else file, wanted)
    ensures EndsSaved(Must(call, next), file, wanted)
  {
  }

  lemma StartReadyEndsSaved(file: bool)
    ensures EndsSaved(Must(AwaitReady, Succeed), file, file) && EndsSaved(StartReady(), file, file)
  {
    MustEndsSaved(AwaitReady, Succeed, file, file);
    MustEndsSaved(LaunchBackend, Must(AwaitReady, Succeed), file, file);
  }

  lemma StartEndsSaved(file: bool)
    ensures EndsSaved(StartScript(), file, file)
  {
    StartReadyEndsSaved(file);
    MustEndsSaved(EnsureBinary, StartReady(), file, file);
    StartPathsEndSaved(Must(AwaitReady, Succeed), Must(EnsureBinary, StartReady()), file);
  }

  lemma StartPathsEndSaved(ready: Script, launch: Script, file: bool)
    requires EndsSaved(ready, file, file) && EndsSaved(launch, file, file)
    ensures EndsSaved(Must(LoadSettings, Probe(Ask(CheckBackend, Succeed, Succeed), Ask(CheckBackend, ready, launch))), file, file)
  {
    assert EndsSaved(Ask(CheckBackend, ready, launch), file, file);
    assert EndsSaved(Ask(CheckBackend, Succeed, Succeed), file, file);
  }

  lemma UpdaterReadyEndsSaved(file: bool)
    ensures EndsSaved(StartUpdaterReady(), file, file) && EndsSaved(Must(StopUpdater, StartUpdaterReady()), file, file)
  {
    StartReadyEndsSaved(file);
    MustEndsSaved(StartUpdater, Must(AwaitReady, Succeed), file, file);
    MustEndsSaved(StopUpdater, StartUpdaterReady(), file, file);
  }

  lemma BootstrapEndsSaved(file: bool, wanted: bool)
    ensures EndsSaved(BootstrapScript(), file, wanted)
  {
    UpdaterReadyEndsSaved(wanted);
    BootstrapPathsEndSaved(StartUpdaterReady(), Must(StopUpdater, StartUpdaterReady()), file, wanted);
  }

  lemma BootstrapPathsEndSaved(start: Script, restart: Script, file: bool, wanted: bool)
    requires EndsSaved(start, wanted, wanted) && EndsSaved(restart, wanted, wanted)
    ensures
      var replace := Must(SaveSettings, StopIfRunning(Must(LaunchBackend, Ask(CheckUpdater, restart, start))));
      EndsSaved(Must(EnsureBinary, Probe(Ask(CheckBackend, replace, GiveUp), replace)), file, wanted)
  {
    var launch := Must(LaunchBackend, Ask(CheckUpdater, restart, start));
    assert EndsSaved(launch, wanted, wanted);
    assert EndsSaved(StopIfRunning(launch), wanted, wanted);
    var replace := Must(SaveSettings, StopIfRunning(launch));
    assert EndsSaved(replace, file, wanted);
    assert EndsSaved(Ask(CheckBackend, replace, GiveUp), file, wanted);
  }

  lemma SetEndsSaved(file: bool, wanted: bool, after: Script)
    requires EndsSaved(after, wanted, wanted)
    ensures EndsSaved(SetScript(wanted, after), file, wanted)
  {
    SetFromEndsSaved(file, wanted, after);
  }

  lemma SetFromEndsSaved(file: bool, wanted: bool, after: Script)
    requires EndsSaved(after, wanted, wanted)
    ensures EndsSaved(SetFrom(wanted, file, after), file, wanted)
  {
    if file == wanted {
      assert EndsSaved(Must(AwaitReady, Must(CallSocket, after)), file, wanted);
      assert EndsSaved(Probe(GiveUp, after), file, wanted);
    } else {
      var launch := Must(LaunchBackend, Must(AwaitReady, after));
      assert EndsSaved(launch, wanted, wanted);
      assert EndsSaved(Must(EnsureBinary, Must(StopBackend, launch)), wanted, wanted);
      assert EndsSaved(Must(SaveSettings, after), file, wanted);
      assert EndsSaved(Probe(GiveUp, Must(SaveSettings, after)), file, wanted);
    }
  }

  lemma ScriptsEndSaved(op: Op, file: bool)
    requires Aim(op).Some?
    ensures EndsSaved(ScriptOf(op), file, Aim(op).value)
  {
    match op {
      case SetRemoteControl(enabled) => SetEndsSaved(file, enabled, Succeed);
      case Bootstrap(enabled) => BootstrapEndsSaved(file, enabled);
      case EnsureRemoteControlStarted =>
        StartEndsSaved(true);
        SetEndsSaved(file, true, StartScript());
        BootstrapEndsSaved(file, true);
        EnsureEndsSaved(SetScript(true, StartScript()), BootstrapScript(), file);
    }
  }

  lemma EnsureEndsSaved(set1: Script, bootstrap: Script, file: bool)
    requires EndsSaved(set1, file, true) && EndsSaved(bootstrap, file, true)
    ensures EndsSaved(Must(LoadSettings, Ask(CheckBootstrapped, set1, bootstrap)), file, true)
  {
    assert EndsSaved(Ask(CheckBootstrapped, set1, bootstrap), file, true);
  }

  lemma ResumeEndsSaved(script: Script, file: bool, wanted: bool, call: Returned)
    requires EndsSaved(script, file, wanted) && CallOf(script) == Some(call.pc) && Fits(call)
    requires call.file == if call.pc.SaveSettings? && !call.reply.Err? then wanted else file
    ensures EndsSaved(Resume(script, call.reply, call.file), call.file, wanted)
  {
  }

  /** What the process would save is what its operation is to leave on file. */
  predicate Carries(wanted: bool, l: Local) {
    && (l.op.SetRemoteControl? ==> l.op.enabled == wanted)
    && (l.op.Bootstrap? ==> l.op.enabled == wanted && (InSection(l) ==> l.settings == wanted && !l.pc.LoadSettings?))
    && (l.op.EnsureRemoteControlStarted? ==> wanted)
    && (l.thenStart ==> l.op.SetRemoteControl?)
  }

  lemma CarriesFinish(wanted: bool, l: Local)
    requires Carries(wanted, l)
    ensures Carries(wanted, Finish(l))
  {
  }

  /** A process that goes on with the same operation and settings. */
  lemma CarriesOn(wanted: bool, l: Local, next: Local)
    requires Carries(wanted, l) && InSection(l) && next.op == l.op && next.thenStart == l.thenStart
    requires l.op.Bootstrap? ==> next.settings == l.settings && !next.pc.LoadSettings?
    ensures Carries(wanted, next)
  {
  }

  lemma CarriesLoad(wanted: bool, l: Local, file: bool)
    requires Carries(wanted, l) && l.pc.LoadSettings?
    ensures Carries(wanted, AfterLoad(l, file))
  {
    CarriesOn(wanted, l, AfterLoad(l, file));
  }

  lemma CarriesCompare(wanted: bool, l: Local)
    requires Carries(wanted, l) && InSection(l)
    ensures Carries(wanted, CompareSetting(l))
  {
    CarriesFinish(wanted, l);
    CarriesOn(wanted, l, l.(pc := AwaitReady));
    CarriesOn(wanted, l, l.(pc := SaveSettings));
  }

  lemma CarriesDecision(wanted: bool, l: Local, decision: RestartDecision)
    requires Carries(wanted, l) && InSection(l)
    ensures Carries(wanted, FollowDecision(l, decision))
  {
    CarriesFinish(wanted, l);
    CarriesOn(wanted, l, l.(pc := StopBackend));
  }

  lemma CarriesProbe(wanted: bool, l: Local, yes: bool)
    requires Carries(wanted, l) && l.pc.ProbeSocket?
    ensures Carries(wanted, AfterProbe(l, yes))
  {
    var noted := l.(answered := yes);
    CarriesOn(wanted, l, noted);
    CarriesFinish(wanted, noted);
    CarriesOn(wanted, noted, Fail(noted));
    match l.op {
      case SetRemoteControl(_) => CarriesCompare(wanted, noted);
      case TryRestartIfRunning(always, _) => CarriesDecision(wanted, noted, Decide(always, false, false));
      case _ =>
    }
  }

  lemma CarriesCheck(wanted: bool, l: Local, yes: bool)
    requires Carries(wanted, l) && l.pc.CheckBackend?
    ensures Carries(wanted, AfterCheck(l, yes))
  {
    var noted := l.(found := yes, clear := !yes);
    CarriesOn(wanted, l, noted);
    CarriesFinish(wanted, noted);
    CarriesOn(wanted, noted, Fail(noted));
    CarriesCompare(wanted, noted);
  }

  lemma CarriesSave(wanted: bool, l: Local)
    requires Carries(wanted, l) && l.pc.SaveSettings?
    ensures Carries(wanted, AfterSave(l))
  {
  }

  lemma CarriesReady(wanted: bool, l: Local)
    requires Carries(wanted, l) && l.pc.AwaitReady?
    ensures Carries(wanted, AfterReady(l))
  {
    CarriesFinish(wanted, l);
  }

  lemma CarriesBootstrapped(wanted: bool, l: Local, yes: bool)
    requires Carries(wanted, l) && l.pc.CheckBootstrapped? && l.op.EnsureRemoteControlStarted?
    ensures Carries(wanted, AfterBootstrapped(l, yes))
  {
  }

  lemma CarriesRest(wanted: bool, l: Local, yes: bool)
    requires Carries(wanted, l) && DaemonLifecycle.Rest(l.pc)
    ensures Carries(wanted, AfterRest(l, yes))
  {
    CarriesFinish(wanted, l);
  }

  lemma CarriesStop(wanted: bool, l: Local)
    requires Carries(wanted, l) && l.pc.StopBackend?
    ensures Carries(wanted, AfterStop(l))
  {
    if l.op.Stop? {
      CarriesFinish(wanted, l.(clear := true));
    } else {
      CarriesOn(wanted, l, AfterStop(l));
    }
  }

  lemma CarriesOthers(wanted: bool, l: Local, yes: bool)
    requires Carries(wanted, l) && InSection(l)
    ensures l.pc.EnsureBinary? ==> Carries(wanted, AfterBinary(l))
    ensures l.pc.RecheckBackend? ==> Carries(wanted, AfterRecheck(l, yes))
    ensures l.pc.LaunchBackend? ==> Carries(wanted, AfterLaunch(l))
  {
    CarriesOn(wanted, l, AfterBinary(l));
    CarriesOn(wanted, l, AfterRecheck(l, yes));
    CarriesOn(wanted, l, AfterLaunch(l));
  }

  lemma CarriesAdvance(wanted: bool, l: Local, file: bool, reply: Reply)
    requires Carries(wanted, l) && InSection(l) && (l.pc.CheckBootstrapped? ==> l.op.EnsureRemoteControlStarted?)
    ensures Carries(wanted, Advance(l, file, reply))
  {
    if reply.Err? && !l.pc.ProbeSocket? {
      CarriesOn(wanted, l, Fail(l));
    } else {
      match l.pc {
        case LoadSettings => CarriesLoad(wanted, l, file);
        case ProbeSocket => CarriesProbe(wanted, l, reply.Yes?);
        case CheckBackend => CarriesCheck(wanted, l, reply.Yes?);
        case SaveSettings => CarriesSave(wanted, l);
        case AwaitReady => CarriesReady(wanted, l);
        case CheckBootstrapped => CarriesBootstrapped(wanted, l, reply.Yes?);
        case CompareVersion => CarriesDecision(wanted, l, Decide(l.op.TryRestartIfRunning? && l.op.always, true, reply.Yes?));
        case EnsureBinary => CarriesOthers(wanted, l, reply.Yes?);
        case RecheckBackend => CarriesOthers(wanted, l, reply.Yes?);
        case LaunchBackend => CarriesOthers(wanted, l, reply.Yes?);
        case StopBackend => CarriesStop(wanted, l);
        case _ => CarriesRest(wanted, l, reply.Yes?);
      }
    }
  }

  // ---------------------------------------------------------------- along a run

  /** In its critical section, the operation is on its way to leave `wanted` on file. */
  predicate OnItsWay(w: World, p: Proc, op: Op, calls: seq<Returned>) {
    Aim(op).Some? && p in w.procs && InSection(w.procs[p]) ==>
      Carries(Aim(op).value, w.procs[p]) && EndsSaved(Follow(ScriptOf(op), calls), w.saved, Aim(op).value)
  }

  /** What a call leaves on file. */
  lemma FileAfter(w: World, p: Proc, reply: Reply)
    requires p in w.procs && InSection(w.procs[p]) && Possible(w, w.procs[p].pc, reply)
    ensures
      var l := w.procs[p];
      Turn(w, p, reply).saved == if l.pc.SaveSettings? && !reply.Err? then SavedValue(l) else w.saved
  {
    var l := w.procs[p];
    SavedAfter(w, p, reply);
    if reply.Err? || !Changes(l.pc) {
      CalledQuietly(w, p, l, reply);
    } else {
      CalledChange(w, p, l, reply);
    }
  }

  lemma SavesWhatItCarries(wanted: bool, l: Local)
    requires Carries(wanted, l) && InSection(l) && WritesSettings(l.op)
    ensures SavedValue(l) == wanted
  {
  }

  lemma CallOnItsWay(w: World, p: Proc, reply: Reply, op: Op, calls: seq<Returned>, wanted: bool)
    requires p in w.procs && InSection(w.procs[p]) && Possible(w, w.procs[p].pc, reply)
    requires CallOf(Follow(ScriptOf(op), calls)) == Some(w.procs[p].pc)
    requires Carries(wanted, w.procs[p]) && EndsSaved(Follow(ScriptOf(op), calls), w.saved, wanted)
    requires w.procs[p].pc.SaveSettings? ==> WritesSettings(w.procs[p].op)
    ensures EndsSaved(Follow(ScriptOf(op), calls + Makes(w, Step(p, reply), p)), Turn(w, p, reply).saved, wanted)
  {
    var l := w.procs[p];
    var call := Returned(l.pc, reply, Turn(w, p, reply).saved);
    assert Makes(w, Step(p, reply), p) == [call] && Fits(call);
    FileAfter(w, p, reply);
    if l.pc.SaveSettings? {
      SavesWhatItCarries(wanted, l);
    }
    FollowSnoc(ScriptOf(op), calls, call);
    ResumeEndsSaved(Follow(ScriptOf(op), calls), w.saved, wanted, call);
  }

  lemma EnterCarries(op: Op)
    requires Aim(op).Some?
    ensures Carries(Aim(op).value, Enter(Fresh(op)))
  {
  }

  lemma EnterOnItsWay(w: World, p: Proc, reply: Reply, op: Op)
    requires p in w.procs && w.procs[p] == Fresh(op) && Aim(op).Some?
    ensures OnItsWay(TryAcquire(w, p, w.procs[p], reply), p, op, [])
  {
    var after := TryAcquire(w, p, w.procs[p], reply);
    if !reply.Err? && w.holder.None? {
      assert after.procs[p] == Enter(Fresh(op)) && after.saved == w.saved;
      ScriptsEndSaved(op, w.saved);
      EnterCarries(op);
    } else {
      assert !InSection(after.procs[p]);
    }
  }

  /** While `p` holds the lock, what is on file changes by its own calls only. */
  lemma OthersLeaveTheFile(setting: bool, actions: seq<Action>, action: Action, p: Proc)
    requires
      var w := Run(InitialWorld(setting), actions);
      p in w.procs && InSection(w.procs[p]) && !((action.Step? || action.Crash?) && action.proc == p)
    ensures Next(Run(InitialWorld(setting), actions), action).saved == Run(InitialWorld(setting), actions).saved
  {
    RunPreserves(InitialWorld(setting), actions);
    assert LocalOk(Run(InitialWorld(setting), actions), p);
    ChangesNeedTheLock(setting, actions, action);
  }

  lemma {:induction false} AlwaysOnItsWay(setting: bool, actions: seq<Action>, p: Proc)
    requires Begun(actions, p).Some?
    ensures OnItsWay(Run(InitialWorld(setting), actions), p, Begun(actions, p).value, Made(InitialWorld(setting), actions, p))
  {
    var w0, n := InitialWorld(setting), |actions| - 1;
    var before, action := actions[..n], actions[n];
    assert actions == before + [action];
    ReadingsStep(w0, before, action, p);
    AlwaysPlaced(setting, before, p);
    if Begun(before, p).None? {
      Appears(Run(w0, before), action, p);
    } else {
      AlwaysOnItsWay(setting, before, p);
      if Aim(Begun(before, p).value).Some? {
        OnItsWayStep(setting, before, action, p);
      }
    }
  }

  lemma OnItsWayStep(setting: bool, before: seq<Action>, action: Action, p: Proc)
    requires Begun(before, p).Some? && Aim(Begun(before, p).value).Some? && Placement(InitialWorld(setting), before, p)
    requires OnItsWay(Run(InitialWorld(setting), before), p, Begun(before, p).value, Made(InitialWorld(setting), before, p))
    ensures
      var w, calls := Run(InitialWorld(setting), before), Made(InitialWorld(setting), before, p);
      OnItsWay(Next(w, action), p, Begun(before, p).value, calls + Makes(w, action, p))
  {
    var w0, w := InitialWorld(setting), Run(InitialWorld(setting), before);
    var op, calls := Begun(before, p).value, Made(w0, before, p);
    var l := w.procs[p];
    assert calls + [] == calls;
    if action.Step? && action.proc == p {
      if l.pc.AcquireLock? {
        WaitingIsFresh(l, op, calls, Crash(p) in before);
        EnterOnItsWay(w, p, action.reply, op);
      } else if InSection(l) && Possible(w, l.pc, action.reply) {
        OwnOnItsWay(setting, before, p, action.reply);
      }
    } else if action.Crash? && action.proc == p {
      if !l.pc.Done? {
        ContinueFrame(w, p, Fail(l));
      }
    } else {
      OthersStep(w, p, action);
      if InSection(l) {
        OthersLeaveTheFile(setting, before, action, p);
      }
    }
  }

  lemma OwnOnItsWay(setting: bool, before: seq<Action>, p: Proc, reply: Reply)
    requires Begun(before, p).Some? && Aim(Begun(before, p).value).Some? && Placement(InitialWorld(setting), before, p)
    requires OnItsWay(Run(InitialWorld(setting), before), p, Begun(before, p).value, Made(InitialWorld(setting), before, p))
    requires
      var w := Run(InitialWorld(setting), before);
      p in w.procs && InSection(w.procs[p]) && Possible(w, w.procs[p].pc, reply)
    ensures
      var w, calls := Run(InitialWorld(setting), before), Made(InitialWorld(setting), before, p);
      var op, after := Begun(before, p).value, Turn(w, p, reply);
      && p in after.procs && Carries(Aim(op).value, after.procs[p])
      && EndsSaved(Follow(ScriptOf(op), calls + Makes(w, Step(p, reply), p)), after.saved, Aim(op).value)
  {
    var w0, w := InitialWorld(setting), Run(InitialWorld(setting), before);
    var op, calls, l := Begun(before, p).value, Made(w0, before, p), w.procs[p];
    RunPreserves(w0, before);
    assert LocalOk(w, p);
    ReadStanding(l, op, calls, Crash(p) in before);
    OwnStep(w, p, reply);
    CarriesAdvance(Aim(op).value, l, Called(w, p, l, reply).saved, reply);
    CallOnItsWay(w, p, reply, op, calls, Aim(op).value);
  }

  /** At the moment a set, a bootstrap or an ensure-started succeeds, the setting it was to leave is on file. */
  lemma SuccessLeavesTheSetting(setting: bool, before: seq<Action>, action: Action, p: Proc)
    requires Succeeds(Run(InitialWorld(setting), before), action, p)
    ensures Begun(before, p).Some?
    ensures Aim(Begun(before, p).value).Some? ==> Next(Run(InitialWorld(setting), before), action).saved == Aim(Begun(before, p).value).value
  {
    var w0 := InitialWorld(setting);
    AlwaysPlaced(setting, before, p);
    SuccessIsACall(Run(w0, before), action, p);
    if Aim(Begun(before, p).value).Some? {
      AlwaysOnItsWay(setting, before, p);
      OwnOnItsWay(setting, before, p, action.reply);
      ReadingsStep(w0, before, action, p);
      EveryProcessFollowsItsScript(setting, before + [action], p);
    }
  }
}
