/**
 The daemon's operations as nested scripts, the way they read in the source, and the proof that the
 step-by-step machine of `DaemonLifecycle` follows them: in every run, whatever the other processes do, a
 process makes exactly the calls its script asks for, and it succeeds exactly when the script does.
 */
module DaemonScripts {
  import opened Options
  import opened DaemonLifecycle

  datatype Script =
    | Succeed
    | GiveUp
    | Must(call: Pc, next: Script)                        // an error ends the operation
    | Ask(call: Pc, ifYes: Script, ifNo: Script)          // an error ends the operation
    | Probe(ifAnswered: Script, ifSilent: Script)         // an error is silence
    | Load(ifEnabled: Script, ifDisabled: Script)         // by the remote-control setting on file

  // ---------------------------------------------------------------- the operations

  function StartReady(): Script {
    Must(LaunchBackend, Must(AwaitReady, Succeed))
  }

  function StartScript(): Script {
    Must(LoadSettings,
         Probe(Ask(CheckBackend, Succeed, Succeed),
               Ask(CheckBackend, Must(AwaitReady, Succeed), Must(EnsureBinary, StartReady()))))
  }

  function StopIfRunning(next: Script): Script {
    Ask(RecheckBackend, Must(StopBackend, next), next)
  }

  function RestartScript(): Script {
    var replace := Must(EnsureBinary, StopIfRunning(StartReady()));
    Must(LoadSettings, Probe(Ask(CheckBackend, replace, GiveUp), replace))
  }

  function StopScript(): Script {
    Must(LoadSettings, Ask(CheckBackend, Must(StopBackend, Succeed), Probe(GiveUp, Succeed)))
  }

  /** `set_remote_control_locked`, with the setting it found and what comes after it. */
  function SetFrom(wanted: bool, current: bool, after: Script): Script {
    Ask(CheckBackend,
        if current == wanted then Must(AwaitReady, Must(CallSocket, after))
        else Must(SaveSettings, Must(EnsureBinary, Must(StopBackend, Must(LaunchBackend, Must(AwaitReady, after))))),
        Probe(GiveUp, if current == wanted then after else Must(SaveSettings, after)))
  }

  function SetScript(wanted: bool, after: Script): Script {
    Load(SetFrom(wanted, true, after), SetFrom(wanted, false, after))
  }

  function StartUpdaterReady(): Script {
    Must(StartUpdater, Must(AwaitReady, Succeed))
  }

  function BootstrapScript(): Script {
    var launch := Must(LaunchBackend, Ask(CheckUpdater, Must(StopUpdater, StartUpdaterReady()), StartUpdaterReady()));
    var replace := Must(SaveSettings, StopIfRunning(launch));
    Must(EnsureBinary, Probe(Ask(CheckBackend, replace, GiveUp), replace))
  }

  function EnsureScript(): Script {
    Must(LoadSettings, Ask(CheckBootstrapped, SetScript(true, StartScript()), BootstrapScript()))
  }

  function UpdaterScript(always: bool, reexec: bool): Script {
    var replace := Must(StopBackend, Must(LaunchBackend, Must(AwaitReady, if reexec then Must(ReexecUpdater, Succeed) else Succeed)));
    Must(LoadSettings,
         Ask(CheckBackend,
             Probe(Ask(CompareVersion, if always then replace else Succeed, replace), if always then replace else Succeed),
             Probe(GiveUp, Succeed)))
  }

  function ScriptOf(op: Op): Script {
    match op
    case Start => StartScript()
    case Restart => RestartScript()
    case Stop => StopScript()
    case SetRemoteControl(enabled) => SetScript(enabled, Succeed)
    case Bootstrap(_) => BootstrapScript()
    case EnsureRemoteControlStarted => EnsureScript()
    case TryRestartIfRunning(always, reexec) => UpdaterScript(always, reexec)
  }

  // ---------------------------------------------------------------- running a script

  /** The call a script makes next. */
  function CallOf(script: Script): Option<Pc> {
    match script
    case Succeed => None
    case GiveUp => None
    case Must(call, _) => Some(call)
    case Ask(call, _, _) => Some(call)
    case Probe(_, _) => Some(ProbeSocket)
    case Load(_, _) => Some(LoadSettings)
  }

  /** Where it goes on when the call returned `reply` and the settings file holds `file`. */
  function Resume(script: Script, reply: Reply, file: bool): Script {
    match script
    case Succeed => Succeed
    case GiveUp => GiveUp
    case Must(_, next) => if reply.Err? then GiveUp else next
    case Ask(_, ifYes, ifNo) => if reply.Err? then GiveUp else if reply.Yes? then ifYes else ifNo
    case Probe(ifAnswered, ifSilent) => if reply.Yes? then ifAnswered else ifSilent
    case Load(ifEnabled, ifDisabled) => if reply.Err? then GiveUp else if file then ifEnabled else ifDisabled
  }

  /** A call that returned, and what the settings file held then. */
  datatype Returned = Returned(pc: Pc, reply: Reply, file: bool)

  function Follow(script: Script, calls: seq<Returned>): Script {
    if calls == [] then script
    else
      var n := |calls| - 1;
      Resume(Follow(script, calls[..n]), calls[n].reply, calls[n].file)
  }

  /** The calls are the ones the script asks for, one after the other. */
  predicate Legal(script: Script, calls: seq<Returned>) {
    calls == [] ||
    var n := |calls| - 1;
    Legal(script, calls[..n]) && CallOf(Follow(script, calls[..n])) == Some(calls[n].pc)
  }

  // ---------------------------------------------------------------- the script a process has left

  /** What follows when the operation at hand is over. */
  function Afterwards(l: Local): Script {
    if l.thenStart then StartScript() else Succeed
  }

  function LeftStart(pc: Pc, answered: bool): Script {
    var unanswered := Ask(CheckBackend, Must(AwaitReady, Succeed), Must(EnsureBinary, StartReady()));
    match pc
    case LoadSettings => StartScript()
    case ProbeSocket => Probe(Ask(CheckBackend, Succeed, Succeed), unanswered)
    case CheckBackend => if answered then Ask(CheckBackend, Succeed, Succeed) else unanswered
    case EnsureBinary => Must(EnsureBinary, StartReady())
    case LaunchBackend => StartReady()
    case AwaitReady => Must(AwaitReady, Succeed)
    case Done(Succeeded) => Succeed
    case _ => GiveUp
  }

  function LeftRestart(pc: Pc): Script {
    var replace := Must(EnsureBinary, StopIfRunning(StartReady()));
    match pc
    case LoadSettings => RestartScript()
    case ProbeSocket => Probe(Ask(CheckBackend, replace, GiveUp), replace)
    case CheckBackend => Ask(CheckBackend, replace, GiveUp)
    case EnsureBinary => replace
    case RecheckBackend => StopIfRunning(StartReady())
    case StopBackend => Must(StopBackend, StartReady())
    case LaunchBackend => StartReady()
    case AwaitReady => Must(AwaitReady, Succeed)
    case Done(Succeeded) => Succeed
    case _ => GiveUp
  }

  function LeftStop(pc: Pc): Script {
    match pc
    case LoadSettings => StopScript()
    case CheckBackend => Ask(CheckBackend, Must(StopBackend, Succeed), Probe(GiveUp, Succeed))
    case StopBackend => Must(StopBackend, Succeed)
    case ProbeSocket => Probe(GiveUp, Succeed)
    case Done(Succeeded) => Succeed
    case _ => GiveUp
  }

  function LeftSet(wanted: bool, l: Local): Script {
    var after := Afterwards(l);
    match l.pc
    case LoadSettings => SetScript(wanted, after)
    case CheckBackend => SetFrom(wanted, l.settings, after)
    case ProbeSocket => Probe(GiveUp, if l.settings == wanted then after else Must(SaveSettings, after))
    case SaveSettings =>
      Must(SaveSettings,
           if l.found then Must(EnsureBinary, Must(StopBackend, Must(LaunchBackend, Must(AwaitReady, after)))) else after)
    case EnsureBinary => Must(EnsureBinary, Must(StopBackend, Must(LaunchBackend, Must(AwaitReady, after))))
    case StopBackend => Must(StopBackend, Must(LaunchBackend, Must(AwaitReady, after)))
    case LaunchBackend => Must(LaunchBackend, Must(AwaitReady, after))
    case AwaitReady => Must(AwaitReady, if l.saved then after else Must(CallSocket, after))
    case CallSocket => Must(CallSocket, after)
    case Done(Succeeded) => Succeed
    case _ => GiveUp
  }

  function LeftBootstrap(pc: Pc): Script {
    var launch := Must(LaunchBackend, Ask(CheckUpdater, Must(StopUpdater, StartUpdaterReady()), StartUpdaterReady()));
    var replace := Must(SaveSettings, StopIfRunning(launch));
    match pc
    case EnsureBinary => BootstrapScript()
    case ProbeSocket => Probe(Ask(CheckBackend, replace, GiveUp), replace)
    case CheckBackend => Ask(CheckBackend, replace, GiveUp)
    case SaveSettings => replace
    case RecheckBackend => StopIfRunning(launch)
    case StopBackend => Must(StopBackend, launch)
    case LaunchBackend => launch
    case CheckUpdater => Ask(CheckUpdater, Must(StopUpdater, StartUpdaterReady()), StartUpdaterReady())
    case StopUpdater => Must(StopUpdater, StartUpdaterReady())
    case StartUpdater => StartUpdaterReady()
    case AwaitReady => Must(AwaitReady, Succeed)
    case Done(Succeeded) => Succeed
    case _ => GiveUp
  }

  function LeftEnsure(pc: Pc): Script {
    match pc
    case LoadSettings => EnsureScript()
    case CheckBootstrapped => Ask(CheckBootstrapped, SetScript(true, StartScript()), BootstrapScript())
    case Done(Succeeded) => Succeed
    case _ => GiveUp
  }

  function Reexec(reexec: bool): Script {
    if reexec then Must(ReexecUpdater, Succeed) else Succeed
  }

  function Replace(reexec: bool): Script {
    Must(StopBackend, Must(LaunchBackend, Must(AwaitReady, Reexec(reexec))))
  }

  function ReplaceIf(always: bool, reexec: bool): Script {
    if always then Replace(reexec) else Succeed
  }

  function Compare(always: bool, reexec: bool): Script {
    Ask(CompareVersion, ReplaceIf(always, reexec), Replace(reexec))
  }

  function LeftUpdater(always: bool, reexec: bool, pc: Pc, found: bool): Script {
    match pc
    case LoadSettings => UpdaterScript(always, reexec)
    case CheckBackend =>
      Ask(CheckBackend, Probe(Compare(always, reexec), ReplaceIf(always, reexec)), Probe(GiveUp, Succeed))
    case ProbeSocket => if found then Probe(Compare(always, reexec), ReplaceIf(always, reexec)) else Probe(GiveUp, Succeed)
    case CompareVersion => Compare(always, reexec)
    case StopBackend => Replace(reexec)
    case LaunchBackend => Must(LaunchBackend, Must(AwaitReady, Reexec(reexec)))
    case AwaitReady => Must(AwaitReady, Reexec(reexec))
    case ReexecUpdater => Must(ReexecUpdater, Succeed)
    case Done(Succeeded) => Succeed
    case _ => GiveUp
  }

  /** The script a process past the lock has left. */
  function Left(l: Local): Script {
    match l.op
    case Start => LeftStart(l.pc, l.answered)
    case Restart => LeftRestart(l.pc)
    case Stop => LeftStop(l.pc)
    case SetRemoteControl(wanted) => LeftSet(wanted, l)
    case Bootstrap(_) => LeftBootstrap(l.pc)
    case EnsureRemoteControlStarted => LeftEnsure(l.pc)
    case TryRestartIfRunning(always, reexec) => LeftUpdater(always, reexec, l.pc, l.found)
  }

  /** A process past the lock is where its script is: about to make the call the script asks for, or done the
      way the script is. */
  predicate Placed(l: Local, script: Script) {
    match l.pc
    case AcquireLock => false
    case Done(Succeeded) => script.Succeed?
    case Done(Failed) => script.GiveUp?
    case Done(Busy) => false
    case _ => CallOf(script) == Some(l.pc)
  }

  /** The flags that tell a set where it is. */
  predicate Flags(l: Local) {
    && (l.thenStart ==> l.op.SetRemoteControl?)
    && (l.op.EnsureRemoteControlStarted? ==> !l.saved)
    && (l.op.SetRemoteControl? ==>
          && (l.pc.LoadSettings? || l.pc.CheckBackend? || l.pc.ProbeSocket? || l.pc.SaveSettings? ==> !l.saved)
          && (l.pc.ProbeSocket? ==> !l.found)
          && (l.pc.EnsureBinary? || l.pc.StopBackend? || l.pc.LaunchBackend? ==> l.saved))
  }

  predicate OnTrack(l: Local) {
    Placed(l, Left(l)) && Flags(l)
  }

  lemma EnterOnTrack(op: Op)
    ensures OnTrack(Enter(Fresh(op))) && Left(Enter(Fresh(op))) == ScriptOf(op) && InSection(Enter(Fresh(op)))
  {
  }

  // ---------------------------------------------------------------- one call

  /** A call takes the process and its script to the same place. */
  predicate Together(l: Local, file: bool, reply: Reply, next: Local) {
    OnTrack(next) && Left(next) == Resume(Left(l), reply, file)
  }

  lemma FinishOnTrack(l: Local)
    requires l.op.SetRemoteControl?
    ensures OnTrack(Finish(l)) && Left(Finish(l)) == Afterwards(l)
  {
  }

  lemma UpdaterFinishes(l: Local)
    requires l.op.TryRestartIfRunning? && !l.thenStart
    ensures OnTrack(Finish(l)) && Left(Finish(l)) == Succeed
  {
  }

  lemma UpdaterChecks(l: Local)
    requires l.op.TryRestartIfRunning? && !l.thenStart && l.pc.CheckBackend?
    ensures OnTrack(l) && UpdaterScript(l.op.always, l.op.reexec) == Must(LoadSettings, Left(l))
  {
  }

  lemma UpdaterReplaces(l: Local)
    requires l.op.TryRestartIfRunning? && !l.thenStart && l.pc.StopBackend?
    ensures OnTrack(l) && Left(l) == Replace(l.op.reexec)
  {
  }

  lemma UpdaterLaunches(l: Local)
    requires l.op.TryRestartIfRunning? && !l.thenStart && l.pc.LaunchBackend?
    ensures OnTrack(l) && Left(l) == Must(LaunchBackend, Must(AwaitReady, Reexec(l.op.reexec)))
  {
  }

  lemma UpdaterReexecs(l: Local)
    requires l.op.TryRestartIfRunning? && !l.thenStart && l.pc.ReexecUpdater?
    ensures OnTrack(l) && Left(l) == Must(ReexecUpdater, Succeed)
  {
  }

  /** The updater replaces the backend if it always does, or if the backend answered with another version. */
  lemma UpdaterDecides(l: Local, ready: bool, same: bool)
    requires l.op.TryRestartIfRunning? && !l.thenStart
    ensures
      var next := FollowDecision(l, Decide(l.op.always, ready, same));
      OnTrack(next) && Left(next) == if l.op.always || (ready && !same) then Replace(l.op.reexec) else Succeed
  {
    if l.op.always || (ready && !same) {
      UpdaterReplaces(l.(pc := StopBackend));
    } else {
      UpdaterFinishes(l);
    }
  }

  lemma FailTogether(l: Local, file: bool, reply: Reply)
    requires InSection(l) && OnTrack(l) && reply.Err? && !l.pc.ProbeSocket?
    ensures Together(l, file, reply, Fail(l))
  {
    assert !Left(l).Probe?;
  }

  lemma StartOrRestartLoad(l: Local, file: bool, reply: Reply)
    requires OnTrack(l) && l.pc.LoadSettings? && (l.op.Start? || l.op.Restart?) && !reply.Err?
    ensures Together(l, file, reply, AfterLoad(l, file))
  {
  }

  lemma BootstrapOrStopLoad(l: Local, file: bool, reply: Reply)
    requires OnTrack(l) && l.pc.LoadSettings? && (l.op.Bootstrap? || l.op.Stop?) && !reply.Err?
    ensures Together(l, file, reply, AfterLoad(l, file))
  {
  }

  lemma SetLoad(l: Local, file: bool, reply: Reply)
    requires OnTrack(l) && l.pc.LoadSettings? && l.op.SetRemoteControl? && !reply.Err?
    ensures Together(l, file, reply, AfterLoad(l, file))
  {
  }

  lemma UpdaterLoad(l: Local, file: bool, reply: Reply)
    requires OnTrack(l) && l.pc.LoadSettings? && l.op.TryRestartIfRunning? && !reply.Err?
    ensures Together(l, file, reply, AfterLoad(l, file))
  {
    UpdaterChecks(AfterLoad(l, file));
  }

  lemma EnsureLoad(l: Local, file: bool, reply: Reply)
    requires OnTrack(l) && l.pc.LoadSettings? && l.op.EnsureRemoteControlStarted? && !reply.Err?
    ensures Together(l, file, reply, AfterLoad(l, file))
  {
  }

  lemma LoadTogether(l: Local, file: bool, reply: Reply)
    requires OnTrack(l) && l.pc.LoadSettings? && !reply.Err?
    ensures Together(l, file, reply, AfterLoad(l, file))
  {
    if l.op.Start? || l.op.Restart? {
      StartOrRestartLoad(l, file, reply);
    } else if l.op.Bootstrap? || l.op.Stop? {
      BootstrapOrStopLoad(l, file, reply);
    } else if l.op.SetRemoteControl? {
      SetLoad(l, file, reply);
    } else if l.op.TryRestartIfRunning? {
      UpdaterLoad(l, file, reply);
    } else if l.op.EnsureRemoteControlStarted? {
      EnsureLoad(l, file, reply);
    }
  }

  lemma StartOrRestartCheck(l: Local, file: bool, reply: Reply)
    requires OnTrack(l) && l.pc.CheckBackend? && (l.op.Start? || l.op.Restart?) && !reply.Err?
    ensures Together(l, file, reply, AfterCheck(l, reply.Yes?))
  {
  }

  lemma BootstrapOrStopCheck(l: Local, file: bool, reply: Reply)
    requires OnTrack(l) && l.pc.CheckBackend? && (l.op.Bootstrap? || l.op.Stop?) && !reply.Err?
    ensures Together(l, file, reply, AfterCheck(l, reply.Yes?))
  {
  }

  lemma SetCheck(l: Local, file: bool, reply: Reply)
    requires OnTrack(l) && l.pc.CheckBackend? && l.op.SetRemoteControl? && !reply.Err?
    ensures Together(l, file, reply, AfterCheck(l, reply.Yes?))
  {
    FinishOnTrack(l.(found := reply.Yes?, clear := !reply.Yes?));
  }

  lemma UpdaterCheck(l: Local, file: bool, reply: Reply)
    requires OnTrack(l) && l.pc.CheckBackend? && l.op.TryRestartIfRunning? && !reply.Err?
    ensures Together(l, file, reply, AfterCheck(l, reply.Yes?))
  {
  }

  lemma CheckTogether(l: Local, file: bool, reply: Reply)
    requires OnTrack(l) && l.pc.CheckBackend? && !reply.Err?
    ensures Together(l, file, reply, AfterCheck(l, reply.Yes?))
  {
    if l.op.Start? || l.op.Restart? {
      StartOrRestartCheck(l, file, reply);
    } else if l.op.Bootstrap? || l.op.Stop? {
      BootstrapOrStopCheck(l, file, reply);
    } else if l.op.SetRemoteControl? {
      SetCheck(l, file, reply);
    } else if l.op.TryRestartIfRunning? {
      UpdaterCheck(l, file, reply);
    }
  }

  lemma StartOrRestartProbe(l: Local, file: bool, reply: Reply)
    requires OnTrack(l) && l.pc.ProbeSocket? && (l.op.Start? || l.op.Restart?)
    ensures Together(l, file, reply, AfterProbe(l, reply.Yes?))
  {
  }

  lemma BootstrapOrStopProbe(l: Local, file: bool, reply: Reply)
    requires OnTrack(l) && l.pc.ProbeSocket? && (l.op.Bootstrap? || l.op.Stop?)
    ensures Together(l, file, reply, AfterProbe(l, reply.Yes?))
  {
  }

  lemma SetProbe(l: Local, file: bool, reply: Reply)
    requires OnTrack(l) && l.pc.ProbeSocket? && l.op.SetRemoteControl?
    ensures Together(l, file, reply, AfterProbe(l, reply.Yes?))
  {
    FinishOnTrack(l.(answered := reply.Yes?));
  }

  lemma UpdaterProbe(l: Local, file: bool, reply: Reply)
    requires OnTrack(l) && l.pc.ProbeSocket? && l.op.TryRestartIfRunning?
    ensures Together(l, file, reply, AfterProbe(l, reply.Yes?))
  {
    var noted := l.(answered := reply.Yes?);
    if !reply.Yes? {
      UpdaterFinishes(noted);
      UpdaterDecides(noted, false, false);
    }
  }

  lemma ProbeTogether(l: Local, file: bool, reply: Reply)
    requires OnTrack(l) && l.pc.ProbeSocket?
    ensures Together(l, file, reply, AfterProbe(l, reply.Yes?))
  {
    if l.op.Start? || l.op.Restart? {
      StartOrRestartProbe(l, file, reply);
    } else if l.op.Bootstrap? || l.op.Stop? {
      BootstrapOrStopProbe(l, file, reply);
    } else if l.op.SetRemoteControl? {
      SetProbe(l, file, reply);
    } else if l.op.TryRestartIfRunning? {
      UpdaterProbe(l, file, reply);
    }
  }

  lemma StartOrRestartBinary(l: Local, file: bool, reply: Reply)
    requires OnTrack(l) && l.pc.EnsureBinary? && (l.op.Start? || l.op.Restart?) && !reply.Err?
    ensures Together(l, file, reply, AfterBinary(l))
  {
  }

  lemma BootstrapOrStopBinary(l: Local, file: bool, reply: Reply)
    requires OnTrack(l) && l.pc.EnsureBinary? && (l.op.Bootstrap? || l.op.Stop?) && !reply.Err?
    ensures Together(l, file, reply, AfterBinary(l))
  {
  }

  lemma SetBinary(l: Local, file: bool, reply: Reply)
    requires OnTrack(l) && l.pc.EnsureBinary? && l.op.SetRemoteControl? && !reply.Err?
    ensures Together(l, file, reply, AfterBinary(l))
  {
  }

  lemma BinaryTogether(l: Local, file: bool, reply: Reply)
    requires OnTrack(l) && l.pc.EnsureBinary? && !reply.Err?
    ensures Together(l, file, reply, AfterBinary(l))
  {
    if l.op.Start? || l.op.Restart? {
      StartOrRestartBinary(l, file, reply);
    } else if l.op.Bootstrap? || l.op.Stop? {
      BootstrapOrStopBinary(l, file, reply);
    } else if l.op.SetRemoteControl? {
      SetBinary(l, file, reply);
    }
  }

  lemma RecheckTogether(l: Local, file: bool, reply: Reply)
    requires OnTrack(l) && l.pc.RecheckBackend? && !reply.Err?
    ensures Together(l, file, reply, AfterRecheck(l, reply.Yes?))
  {
  }

  lemma BootstrapOrStopSave(l: Local, file: bool, reply: Reply)
    requires OnTrack(l) && l.pc.SaveSettings? && (l.op.Bootstrap? || l.op.Stop?) && !reply.Err?
    ensures Together(l, file, reply, AfterSave(l))
  {
  }

  lemma SetSave(l: Local, file: bool, reply: Reply)
    requires OnTrack(l) && l.pc.SaveSettings? && l.op.SetRemoteControl? && !reply.Err?
    ensures Together(l, file, reply, AfterSave(l))
  {
    FinishOnTrack(l.(saved := true, dirty := true, settings := l.op.enabled));
  }

  lemma SaveTogether(l: Local, file: bool, reply: Reply)
    requires OnTrack(l) && l.pc.SaveSettings? && !reply.Err?
    ensures Together(l, file, reply, AfterSave(l))
  {
    if l.op.Bootstrap? || l.op.Stop? {
      BootstrapOrStopSave(l, file, reply);
    } else if l.op.SetRemoteControl? {
      SetSave(l, file, reply);
    }
  }

  lemma StartOrRestartStop(l: Local, file: bool, reply: Reply)
    requires OnTrack(l) && l.pc.StopBackend? && (l.op.Start? || l.op.Restart?) && !reply.Err?
    ensures Together(l, file, reply, AfterStop(l))
  {
  }

  lemma BootstrapOrStopStop(l: Local, file: bool, reply: Reply)
    requires OnTrack(l) && l.pc.StopBackend? && (l.op.Bootstrap? || l.op.Stop?) && !reply.Err?
    ensures Together(l, file, reply, AfterStop(l))
  {
  }

  lemma SetStop(l: Local, file: bool, reply: Reply)
    requires OnTrack(l) && l.pc.StopBackend? && l.op.SetRemoteControl? && !reply.Err?
    ensures Together(l, file, reply, AfterStop(l))
  {
  }

  lemma UpdaterStop(l: Local, file: bool, reply: Reply)
    requires OnTrack(l) && l.pc.StopBackend? && l.op.TryRestartIfRunning? && !reply.Err?
    ensures Together(l, file, reply, AfterStop(l))
  {
    UpdaterLaunches(AfterStop(l));
  }

  lemma StopTogether(l: Local, file: bool, reply: Reply)
    requires OnTrack(l) && l.pc.StopBackend? && !reply.Err?
    ensures Together(l, file, reply, AfterStop(l))
  {
    if l.op.Start? || l.op.Restart? {
      StartOrRestartStop(l, file, reply);
    } else if l.op.Bootstrap? || l.op.Stop? {
      BootstrapOrStopStop(l, file, reply);
    } else if l.op.SetRemoteControl? {
      SetStop(l, file, reply);
    } else if l.op.TryRestartIfRunning? {
      UpdaterStop(l, file, reply);
    }
  }

  lemma LaunchTogether(l: Local, file: bool, reply: Reply)
    requires OnTrack(l) && l.pc.LaunchBackend? && !reply.Err?
    ensures Together(l, file, reply, AfterLaunch(l))
  {
  }

  lemma StartOrRestartReady(l: Local, file: bool, reply: Reply)
    requires OnTrack(l) && l.pc.AwaitReady? && (l.op.Start? || l.op.Restart?) && !reply.Err?
    ensures Together(l, file, reply, AfterReady(l))
  {
  }

  lemma BootstrapOrStopReady(l: Local, file: bool, reply: Reply)
    requires OnTrack(l) && l.pc.AwaitReady? && (l.op.Bootstrap? || l.op.Stop?) && !reply.Err?
    ensures Together(l, file, reply, AfterReady(l))
  {
  }

  lemma SetReady(l: Local, file: bool, reply: Reply)
    requires OnTrack(l) && l.pc.AwaitReady? && l.op.SetRemoteControl? && !reply.Err?
    ensures Together(l, file, reply, AfterReady(l))
  {
    FinishOnTrack(l);
  }

  lemma UpdaterReady(l: Local, file: bool, reply: Reply)
    requires OnTrack(l) && l.pc.AwaitReady? && l.op.TryRestartIfRunning? && !reply.Err?
    ensures Together(l, file, reply, AfterReady(l))
  {
    if l.op.reexec {
      UpdaterReexecs(AfterReady(l));
    } else {
      UpdaterFinishes(l);
    }
  }

  lemma ReadyTogether(l: Local, file: bool, reply: Reply)
    requires OnTrack(l) && l.pc.AwaitReady? && !reply.Err?
    ensures Together(l, file, reply, AfterReady(l))
  {
    if l.op.Start? || l.op.Restart? {
      StartOrRestartReady(l, file, reply);
    } else if l.op.Bootstrap? || l.op.Stop? {
      BootstrapOrStopReady(l, file, reply);
    } else if l.op.SetRemoteControl? {
      SetReady(l, file, reply);
    } else if l.op.TryRestartIfRunning? {
      UpdaterReady(l, file, reply);
    }
  }

  lemma BootstrappedTogether(l: Local, file: bool, reply: Reply)
    requires OnTrack(l) && l.pc.CheckBootstrapped? && !reply.Err?
    ensures Together(l, file, reply, AfterBootstrapped(l, reply.Yes?))
  {
  }

  lemma UpdaterVersion(l: Local, file: bool, reply: Reply)
    requires OnTrack(l) && l.pc.CompareVersion? && l.op.TryRestartIfRunning? && !reply.Err?
    ensures Together(l, file, reply, AfterVersion(l, reply.Yes?))
  {
    UpdaterDecides(l, true, reply.Yes?);
  }

  lemma VersionTogether(l: Local, file: bool, reply: Reply)
    requires OnTrack(l) && l.pc.CompareVersion? && !reply.Err?
    ensures Together(l, file, reply, AfterVersion(l, reply.Yes?))
  {
    if l.op.TryRestartIfRunning? {
      UpdaterVersion(l, file, reply);
    }
  }

  lemma CheckUpdaterTogether(l: Local, file: bool, reply: Reply)
    requires OnTrack(l) && l.pc.CheckUpdater? && !reply.Err?
    ensures Together(l, file, reply, AfterRest(l, reply.Yes?))
  {
    assert l.op.Bootstrap?;
  }

  lemma StopUpdaterTogether(l: Local, file: bool, reply: Reply)
    requires OnTrack(l) && l.pc.StopUpdater? && !reply.Err?
    ensures Together(l, file, reply, AfterRest(l, reply.Yes?))
  {
    assert l.op.Bootstrap?;
  }

  lemma StartUpdaterTogether(l: Local, file: bool, reply: Reply)
    requires OnTrack(l) && l.pc.StartUpdater? && !reply.Err?
    ensures Together(l, file, reply, AfterRest(l, reply.Yes?))
  {
    assert l.op.Bootstrap?;
  }

  lemma CallTogether(l: Local, file: bool, reply: Reply)
    requires OnTrack(l) && l.pc.CallSocket? && !reply.Err?
    ensures Together(l, file, reply, AfterRest(l, reply.Yes?))
  {
    assert l.op.SetRemoteControl?;
    FinishOnTrack(l);
  }

  lemma ReexecTogether(l: Local, file: bool, reply: Reply)
    requires OnTrack(l) && l.pc.ReexecUpdater? && !reply.Err?
    ensures Together(l, file, reply, AfterRest(l, reply.Yes?))
  {
    assert l.op.TryRestartIfRunning?;
    UpdaterFinishes(l);
  }

  /** One call of the machine is one call of the script. */
  lemma AdvanceFollows(l: Local, file: bool, reply: Reply)
    requires InSection(l) && OnTrack(l)
    ensures Together(l, file, reply, Advance(l, file, reply))
  {
    if l.pc.ProbeSocket? {
      ProbeTogether(l, file, reply);
    } else if reply.Err? {
      FailTogether(l, file, reply);
    } else {
      match l.pc {
        case LoadSettings => LoadTogether(l, file, reply);
        case CheckBackend => CheckTogether(l, file, reply);
        case EnsureBinary => BinaryTogether(l, file, reply);
        case RecheckBackend => RecheckTogether(l, file, reply);
        case SaveSettings => SaveTogether(l, file, reply);
        case StopBackend => StopTogether(l, file, reply);
        case LaunchBackend => LaunchTogether(l, file, reply);
        case AwaitReady => ReadyTogether(l, file, reply);
        case CheckBootstrapped => BootstrappedTogether(l, file, reply);
        case CompareVersion => VersionTogether(l, file, reply);
        case CheckUpdater => CheckUpdaterTogether(l, file, reply);
        case StopUpdater => StopUpdaterTogether(l, file, reply);
        case StartUpdater => StartUpdaterTogether(l, file, reply);
        case CallSocket => CallTogether(l, file, reply);
        case ReexecUpdater => ReexecTogether(l, file, reply);
      }
    }
  }

  // ---------------------------------------------------------------- whole runs

  /** The operation `p` was spawned with. */
  function Begun(actions: seq<Action>, p: Proc): Option<Op>
    decreases actions
  {
    if actions == [] then None
    else
      var before := Begun(actions[..|actions| - 1], p);
      var action := actions[|actions| - 1];
      if before.None? && action.Spawn? && action.proc == p then Some(action.op) else before
  }

  /** The call of `p` that `action` lets return. */
  function Makes(w: World, action: Action, p: Proc): seq<Returned> {
    if action.Step? && action.proc == p && p in w.procs && InSection(w.procs[p]) && Possible(w, w.procs[p].pc, action.reply)
    then [Returned(w.procs[p].pc, action.reply, Next(w, action).saved)]
    else []
  }

  /** The calls `p` has made in a run, in order. */
  function Made(w: World, actions: seq<Action>, p: Proc): seq<Returned> {
    if actions == [] then []
    else
      var n := |actions| - 1;
      Made(w, actions[..n], p) + Makes(Run(w, actions[..n]), actions[n], p)
  }

  /** How a process stands, given its operation, the calls it made and whether it was crashed: it is where its
      script is after these calls; or it never got the lock; or it was crashed on the way. */
  predicate Stands(l: Local, op: Op, calls: seq<Returned>, crashed: bool) {
    var script := Follow(ScriptOf(op), calls);
    && Legal(ScriptOf(op), calls)
    && (|| (l == Fresh(op) && calls == [])
        || (OnTrack(l) && Left(l) == script)
        || (l.pc == Done(Failed) && (calls == [] || crashed) && CallOf(script).Some?)
        || (l.pc == Done(Busy) && calls == [] && op.TryRestartIfRunning?))
  }

  lemma FollowSnoc(script: Script, calls: seq<Returned>, call: Returned)
    ensures Follow(script, calls + [call]) == Resume(Follow(script, calls), call.reply, call.file)
    ensures Legal(script, calls + [call]) <==> Legal(script, calls) && CallOf(Follow(script, calls)) == Some(call.pc)
  {
    assert (calls + [call])[..|calls|] == calls;
  }

  lemma ScriptsBegin(op: Op)
    ensures CallOf(ScriptOf(op)).Some?
  {
  }

  /** One call keeps the standing. */
  lemma StandsCall(l: Local, op: Op, calls: seq<Returned>, crashed: bool, file: bool, reply: Reply)
    requires InSection(l) && Stands(l, op, calls, crashed)
    ensures Stands(Advance(l, file, reply), op, calls + [Returned(l.pc, reply, file)], crashed)
  {
    FollowSnoc(ScriptOf(op), calls, Returned(l.pc, reply, file));
    AdvanceFollows(l, file, reply);
  }

  lemma StandsAcquire(w: World, p: Proc, reply: Reply, op: Op, crashed: bool)
    requires p in w.procs && w.procs[p] == Fresh(op)
    ensures
      var after := TryAcquire(w, p, w.procs[p], reply).procs;
      p in after && Stands(after[p], op, [], crashed)
  {
    EnterOnTrack(op);
    ScriptsBegin(op);
  }

  lemma StandsCrash(l: Local, op: Op, calls: seq<Returned>, crashed: bool)
    requires Stands(l, op, calls, crashed) && !l.pc.Done?
    ensures Stands(Fail(l), op, calls, true)
  {
    ScriptsBegin(op);
  }

  lemma CrashedStands(l: Local, op: Op, calls: seq<Returned>, crashed: bool)
    requires Stands(l, op, calls, crashed)
    ensures Stands(l, op, calls, true)
  {
  }
}
