/**
 What a daemon operation has done when it succeeds, over all runs and all interleavings: read off the calls
 it made. Every process follows its script, so a law of the script's paths is a law of the runs.
 */
module DaemonOutcomes {
  import opened Options
  import opened DaemonLifecycle
  import opened DaemonHistory
  import opened DaemonScripts

  // ---------------------------------------------------------------- every process follows its script

  /** Where `p` is in a run: not spawned, or standing where its script is. */
  predicate Placement(w0: World, actions: seq<Action>, p: Proc) {
    var w, op := Run(w0, actions), Begun(actions, p);
    if p in w.procs then op.Some? && Stands(w.procs[p], op.value, Made(w0, actions, p), Crash(p) in actions)
    else op.None? && Made(w0, actions, p) == []
  }

  lemma {:induction false} AlwaysPlaced(setting: bool, actions: seq<Action>, p: Proc)
    ensures Placement(InitialWorld(setting), actions, p)
  {
    if actions != [] {
      var n := |actions| - 1;
      assert actions == actions[..n] + [actions[n]];
      AlwaysPlaced(setting, actions[..n], p);
      PlacementStep(InitialWorld(setting), actions[..n], actions[n], p);
    }
  }

  /** The readings of a run after one more action. */
  lemma ReadingsStep(w0: World, actions: seq<Action>, action: Action, p: Proc)
    ensures Run(w0, actions + [action]) == Next(Run(w0, actions), action)
    ensures Made(w0, actions + [action], p) == Made(w0, actions, p) + Makes(Run(w0, actions), action, p)
    ensures
      Begun(actions + [action], p)
      == if Begun(actions, p).None? && action.Spawn? && action.proc == p then Some(action.op) else Begun(actions, p)
  {
    RunSnoc(w0, actions, action);
    assert (actions + [action])[..|actions|] == actions;
  }

  lemma PlacementStep(w0: World, actions: seq<Action>, action: Action, p: Proc)
    requires Placement(w0, actions, p)
    ensures Placement(w0, actions + [action], p)
  {
    var w := Run(w0, actions);
    ReadingsStep(w0, actions, action, p);
    if p !in w.procs {
      Appears(w, action, p);
      if action.Spawn? && action.proc == p {
        FreshStands(action.op, Crash(p) in actions + [action]);
      }
    } else {
      var op, calls := Begun(actions, p).value, Made(w0, actions, p);
      StandsStep(w, action, p, op, calls, Crash(p) in actions);
      if action == Crash(p) {
        assert Crash(p) in actions + [action];
      }
    }
  }

  lemma Appears(w: World, action: Action, p: Proc)
    requires p !in w.procs
    ensures p in Next(w, action).procs <==> action.Spawn? && action.proc == p
    ensures action.Spawn? && action.proc == p ==> Next(w, action).procs[p] == Fresh(action.op)
    ensures Makes(w, action, p) == []
  {
    if action.Step? && action.proc in w.procs {
      ProcsStay(w, action.proc, action.reply);
    }
  }

  lemma FreshStands(op: Op, crashed: bool)
    ensures Stands(Fresh(op), op, [], crashed)
  {
  }

  lemma StandsStep(w: World, action: Action, p: Proc, op: Op, calls: seq<Returned>, crashed: bool)
    requires p in w.procs && Stands(w.procs[p], op, calls, crashed)
    ensures
      var after := Next(w, action).procs;
      p in after && Stands(after[p], op, calls + Makes(w, action, p), crashed || action == Crash(p))
  {
    if action.Step? && action.proc == p {
      StandsTurn(w, p, action.reply, op, calls, crashed);
    } else if action.Crash? && action.proc == p {
      StandsCrashed(w, p, op, calls, crashed);
    } else {
      OthersStep(w, p, action);
      assert calls + [] == calls;
    }
  }

  lemma StandsCrashed(w: World, p: Proc, op: Op, calls: seq<Returned>, crashed: bool)
    requires p in w.procs && Stands(w.procs[p], op, calls, crashed)
    ensures
      var after := Next(w, Crash(p)).procs;
      p in after && Stands(after[p], op, calls + Makes(w, Crash(p), p), true)
  {
    assert calls + Makes(w, Crash(p), p) == calls;
    if w.procs[p].pc.Done? {
      CrashedStands(w.procs[p], op, calls, crashed);
    } else {
      StandsCrash(w.procs[p], op, calls, crashed);
      ContinueFrame(w, p, Fail(w.procs[p]));
    }
  }

  lemma StandsTurn(w: World, p: Proc, reply: Reply, op: Op, calls: seq<Returned>, crashed: bool)
    requires p in w.procs && Stands(w.procs[p], op, calls, crashed)
    ensures
      var after := Turn(w, p, reply).procs;
      p in after && Stands(after[p], op, calls + Makes(w, Step(p, reply), p), crashed)
  {
    var l := w.procs[p];
    assert calls + [] == calls;
    if l.pc.AcquireLock? {
      WaitingIsFresh(l, op, calls, crashed);
      StandsAcquire(w, p, reply, op, crashed);
    } else if InSection(l) && Possible(w, l.pc, reply) {
      OwnStep(w, p, reply);
      SavedAfter(w, p, reply);
      StandsCall(l, op, calls, crashed, Turn(w, p, reply).saved, reply);
    }
  }

  lemma WaitingIsFresh(l: Local, op: Op, calls: seq<Returned>, crashed: bool)
    requires Stands(l, op, calls, crashed) && l.pc.AcquireLock?
    ensures l == Fresh(op) && calls == []
  {
  }

  lemma SavedAfter(w: World, p: Proc, reply: Reply)
    requires p in w.procs && InSection(w.procs[p]) && Possible(w, w.procs[p].pc, reply)
    ensures Turn(w, p, reply).saved == Called(w, p, w.procs[p], reply).saved
  {
    var l := w.procs[p];
    TurnIs(w, p, reply);
    ContinueKeeps(Called(w, p, l, reply), p, Advance(l, Called(w, p, l, reply).saved, reply));
  }

  /** In every run a process makes the calls its script asks for and no others, it succeeds exactly when the
      script does, and it fails only by the script, by a crash, or waiting for the lock. */
  lemma EveryProcessFollowsItsScript(setting: bool, actions: seq<Action>, p: Proc)
    requires p in Run(InitialWorld(setting), actions).procs
    ensures
      var l, calls := Run(InitialWorld(setting), actions).procs[p], Made(InitialWorld(setting), actions, p);
      && Begun(actions, p).Some?
      && var script := ScriptOf(Begun(actions, p).value);
      && Legal(script, calls)
      && (InSection(l) ==> CallOf(Follow(script, calls)) == Some(l.pc))
      && (l.pc == Done(Succeeded) <==> Follow(script, calls).Succeed?)
      && (l.pc == Done(Failed) ==> Follow(script, calls).GiveUp? || Crash(p) in actions || calls == [])
      && (l.pc == Done(Busy) ==> Begun(actions, p).value.TryRestartIfRunning? && calls == [])
  {
    AlwaysPlaced(setting, actions, p);
    var l, op := Run(InitialWorld(setting), actions).procs[p], Begun(actions, p).value;
    ReadStanding(l, op, Made(InitialWorld(setting), actions, p), Crash(p) in actions);
  }

  lemma ReadStanding(l: Local, op: Op, calls: seq<Returned>, crashed: bool)
    requires Stands(l, op, calls, crashed)
    ensures
      var script := Follow(ScriptOf(op), calls);
      && (InSection(l) ==> CallOf(script) == Some(l.pc))
      && (l.pc == Done(Succeeded) <==> script.Succeed?)
      && (l.pc == Done(Failed) ==> script.GiveUp? || crashed || calls == [])
      && (l.pc == Done(Busy) ==> op.TryRestartIfRunning? && calls == [])
  {
    ScriptsBegin(op);
  }

  // ---------------------------------------------------------------- what success takes

  /** A call and what it returned. */
  datatype Call = Call(pc: Pc, reply: Reply)

  /** The calls of a run, without their order; silence on the socket counts as a no. */
  function Noted(calls: seq<Returned>): set<Call> {
    set i | 0 <= i < |calls| :: Heard(calls[i].pc, calls[i].reply)
  }

  function Heard(pc: Pc, reply: Reply): Call {
    if pc.ProbeSocket? && !reply.Yes? then Call(pc, No) else Call(pc, reply)
  }

  predicate Started(done: set<Call>) {
    || Call(ProbeSocket, Yes) in done
    || (Call(AwaitReady, Ok) in done && (Call(CheckBackend, Yes) in done || Call(LaunchBackend, Ok) in done))
  }

  predicate Bootstrapped(done: set<Call>) {
    && Call(EnsureBinary, Ok) in done && Call(SaveSettings, Ok) in done && Call(LaunchBackend, Ok) in done
    && Call(StartUpdater, Ok) in done && Call(AwaitReady, Ok) in done
    && (Call(ProbeSocket, Yes) in done ==> Call(CheckBackend, Yes) in done)
    && (Call(RecheckBackend, Yes) in done ==> Call(StopBackend, Ok) in done)
    && (Call(CheckUpdater, Yes) in done ==> Call(StopUpdater, Ok) in done)
  }

  predicate Restarted(done: set<Call>) {
    && Call(EnsureBinary, Ok) in done && Call(LaunchBackend, Ok) in done && Call(AwaitReady, Ok) in done
    && (Call(ProbeSocket, Yes) in done ==> Call(CheckBackend, Yes) in done)
    && (Call(RecheckBackend, Yes) in done ==> Call(StopBackend, Ok) in done)
  }

  predicate Applied(done: set<Call>) {
    if Call(CheckBackend, Yes) in done then
      && Call(AwaitReady, Ok) in done
      && (Call(SaveSettings, Ok) in done ==> Call(StopBackend, Ok) in done && Call(LaunchBackend, Ok) in done)
      && (Call(SaveSettings, Ok) !in done ==> Call(CallSocket, Ok) in done && Call(LaunchBackend, Ok) !in done)
    else Call(CheckBackend, No) in done && Call(ProbeSocket, No) in done && Call(LaunchBackend, Ok) !in done
  }

  /** The updater replaces a running backend always, or only if it answers with another version; it executes
      itself anew exactly if it replaced the backend and was asked to. */
  predicate Updated(always: bool, reexec: bool, done: set<Call>) {
    var found, differs := Call(CheckBackend, Yes) in done, Call(CompareVersion, No) in done;
    && (Call(LaunchBackend, Ok) in done <==> found && (always || differs))
    && (Call(LaunchBackend, Ok) in done ==> Call(StopBackend, Ok) in done && Call(AwaitReady, Ok) in done)
    && (Call(ReexecUpdater, Ok) in done <==> Call(LaunchBackend, Ok) in done && reexec)
    && (differs || Call(CompareVersion, Yes) in done <==> found && Call(ProbeSocket, Yes) in done)
    && (!found ==> Call(CheckBackend, No) in done && Call(ProbeSocket, No) in done)
  }

  /** What an operation must have done to succeed. */
  predicate Accomplished(op: Op, done: set<Call>) {
    match op
    case Start => Started(done)
    case Restart => Restarted(done)
    case Stop => Call(StopBackend, Ok) in done || (Call(CheckBackend, No) in done && Call(ProbeSocket, No) in done)
    case SetRemoteControl(_) => Applied(done)
    case Bootstrap(_) => Bootstrapped(done)
    case EnsureRemoteControlStarted => if Call(CheckBootstrapped, Yes) in done then Started(done) else Bootstrapped(done)
    case TryRestartIfRunning(always, reexec) => Updated(always, reexec, done)
  }

  /** The calls that ask a question. */
  predicate Asks(pc: Pc) {
    pc.CheckBackend? || pc.RecheckBackend? || pc.CheckUpdater? || pc.CheckBootstrapped? || pc.CompareVersion?
  }

  /** Every path of the script to success accomplishes the operation. */
  predicate Accomplishes(script: Script, done: set<Call>, op: Op)
    decreases script
  {
    match script
    case Succeed => Accomplished(op, done)
    case GiveUp => true
    case Must(call, next) => !Asks(call) && !call.ProbeSocket? && Accomplishes(next, done + {Call(call, Ok)}, op)
    case Ask(call, ifYes, ifNo) =>
      Asks(call) && Accomplishes(ifYes, done + {Call(call, Yes)}, op) && Accomplishes(ifNo, done + {Call(call, No)}, op)
    case Probe(ifAnswered, ifSilent) =>
      Accomplishes(ifAnswered, done + {Call(ProbeSocket, Yes)}, op) && Accomplishes(ifSilent, done + {Call(ProbeSocket, No)}, op)
    case Load(ifEnabled, ifDisabled) =>
      Accomplishes(ifEnabled, done + {Call(LoadSettings, Ok)}, op) && Accomplishes(ifDisabled, done + {Call(LoadSettings, Ok)}, op)
  }

  lemma RestartAccomplishes()
    ensures Accomplishes(RestartScript(), {}, Restart)
  {
  }

  lemma StopAccomplishes()
    ensures Accomplishes(StopScript(), {}, Stop)
  {
  }

  lemma StartAccomplishes()
    ensures Accomplishes(StartScript(), {}, Start)
  {
  }

  lemma UpdaterReplaceAccomplishes(done: set<Call>, always: bool, reexec: bool)
    requires
      Updated(always, reexec,
              done + {Call(StopBackend, Ok), Call(LaunchBackend, Ok), Call(AwaitReady, Ok)}
              + if reexec then {Call(ReexecUpdater, Ok)} else {})
    ensures Accomplishes(Replace(reexec), done, TryRestartIfRunning(always, reexec))
  {
    var op := TryRestartIfRunning(always, reexec);
    var replaced := done + {Call(StopBackend, Ok), Call(LaunchBackend, Ok), Call(AwaitReady, Ok)};
    var ready := done + {Call(StopBackend, Ok)} + {Call(LaunchBackend, Ok)} + {Call(AwaitReady, Ok)};
    assert ready == replaced && replaced + {} == replaced;
    assert Accomplishes(Reexec(reexec), ready, op);
  }

  /** The updater's decision: by its mode, whether the backend answers, and whether the versions differ. */
  lemma UpdaterAccomplishes(always: bool, reexec: bool)
    ensures Accomplishes(UpdaterScript(always, reexec), {}, TryRestartIfRunning(always, reexec))
  {
    var op := TryRestartIfRunning(always, reexec);
    var found := {} + {Call(LoadSettings, Ok)} + {Call(CheckBackend, Yes)};
    var answered := found + {Call(ProbeSocket, Yes)};
    UpdaterReplaceAccomplishes(answered + {Call(CompareVersion, No)}, always, reexec);
    if always {
      UpdaterReplaceAccomplishes(answered + {Call(CompareVersion, Yes)}, always, reexec);
      UpdaterReplaceAccomplishes(found + {Call(ProbeSocket, No)}, always, reexec);
    }
    assert Accomplishes(ReplaceIf(always, reexec), answered + {Call(CompareVersion, Yes)}, op);
    assert Accomplishes(ReplaceIf(always, reexec), found + {Call(ProbeSocket, No)}, op);
    UpdaterPathsAccomplish(Replace(reexec), ReplaceIf(always, reexec), always, reexec);
  }

  lemma UpdaterPathsAccomplish(replace: Script, replaceIf: Script, always: bool, reexec: bool)
    requires
      var op := TryRestartIfRunning(always, reexec);
      var found := {} + {Call(LoadSettings, Ok)} + {Call(CheckBackend, Yes)};
      var answered := found + {Call(ProbeSocket, Yes)};
      && Accomplishes(replace, answered + {Call(CompareVersion, No)}, op)
      && Accomplishes(replaceIf, answered + {Call(CompareVersion, Yes)}, op)
      && Accomplishes(replaceIf, found + {Call(ProbeSocket, No)}, op)
    ensures
      Accomplishes(Must(LoadSettings,
                        Ask(CheckBackend, Probe(Ask(CompareVersion, replaceIf, replace), replaceIf), Probe(GiveUp, Succeed))),
                   {}, TryRestartIfRunning(always, reexec))
  {
    var op := TryRestartIfRunning(always, reexec);
    var loaded: set<Call> := {} + {Call(LoadSettings, Ok)};
    var found := loaded + {Call(CheckBackend, Yes)};
    assert Accomplishes(Probe(Ask(CompareVersion, replaceIf, replace), replaceIf), found, op);
    var none := loaded + {Call(CheckBackend, No)};
    assert Accomplishes(Succeed, none + {Call(ProbeSocket, No)}, op);
  }

  lemma SetAccomplishes(enabled: bool)
    ensures Accomplishes(SetScript(enabled, Succeed), {}, SetRemoteControl(enabled))
  {
    SetFromAccomplishes(enabled, true);
    SetFromAccomplishes(enabled, false);
    assert {} + {Call(LoadSettings, Ok)} == {Call(LoadSettings, Ok)};
  }

  lemma SetFromAccomplishes(enabled: bool, current: bool)
    ensures Accomplishes(SetFrom(enabled, current, Succeed), {Call(LoadSettings, Ok)}, SetRemoteControl(enabled))
  {
    if enabled == current {
    } else {
    }
  }

  /** The operation is a bootstrap. */
  predicate Bootstraps(op: Op, done: set<Call>) {
    op.Bootstrap? || (op.EnsureRemoteControlStarted? && Call(CheckBootstrapped, Yes) !in done)
  }

  lemma UpdaterReadyAccomplishes(done: set<Call>, op: Op)
    requires Bootstraps(op, done) && Bootstrapped(done + {Call(StartUpdater, Ok), Call(AwaitReady, Ok)})
    ensures Accomplishes(StartUpdaterReady(), done, op)
  {
    assert done + {Call(StartUpdater, Ok)} + {Call(AwaitReady, Ok)} == done + {Call(StartUpdater, Ok), Call(AwaitReady, Ok)};
  }

  lemma LaunchAccomplishes(done: set<Call>, op: Op)
    requires Bootstraps(op, done) && Call(CheckUpdater, Yes) !in done
    requires Bootstrapped(done + {Call(LaunchBackend, Ok), Call(StartUpdater, Ok), Call(AwaitReady, Ok)})
    ensures
      Accomplishes(Must(LaunchBackend, Ask(CheckUpdater, Must(StopUpdater, StartUpdaterReady()), StartUpdaterReady())), done, op)
  {
    var launched := done + {Call(LaunchBackend, Ok)};
    UpdaterReadyAccomplishes(launched + {Call(CheckUpdater, Yes)} + {Call(StopUpdater, Ok)}, op);
    UpdaterReadyAccomplishes(launched + {Call(CheckUpdater, No)}, op);
  }

  lemma ReplaceAccomplishes(done: set<Call>, op: Op)
    requires Bootstraps(op, done) && Call(CheckUpdater, Yes) !in done && Call(RecheckBackend, Yes) !in done
    requires Call(EnsureBinary, Ok) in done && (Call(ProbeSocket, Yes) in done ==> Call(CheckBackend, Yes) in done)
    ensures
      var launch := Must(LaunchBackend, Ask(CheckUpdater, Must(StopUpdater, StartUpdaterReady()), StartUpdaterReady()));
      Accomplishes(Must(SaveSettings, StopIfRunning(launch)), done, op)
  {
    var saved := done + {Call(SaveSettings, Ok)};
    LaunchAccomplishes(saved + {Call(RecheckBackend, Yes)} + {Call(StopBackend, Ok)}, op);
    LaunchAccomplishes(saved + {Call(RecheckBackend, No)}, op);
  }

  lemma BootstrapAccomplishes(done: set<Call>, op: Op)
    requires Bootstraps(op, done) && Call(CheckUpdater, Yes) !in done && Call(RecheckBackend, Yes) !in done
    requires Call(ProbeSocket, Yes) !in done
    ensures Accomplishes(BootstrapScript(), done, op)
  {
    var binary := done + {Call(EnsureBinary, Ok)};
    ReplaceAccomplishes(binary + {Call(ProbeSocket, Yes)} + {Call(CheckBackend, Yes)}, op);
    ReplaceAccomplishes(binary + {Call(ProbeSocket, No)}, op);
    var launch := Must(LaunchBackend, Ask(CheckUpdater, Must(StopUpdater, StartUpdaterReady()), StartUpdaterReady()));
    UnlessForeign(Must(SaveSettings, StopIfRunning(launch)), done, op);
  }

  /** A server that answers must be the managed one. */
  lemma UnlessForeign(replace: Script, done: set<Call>, op: Op)
    requires
      var binary := done + {Call(EnsureBinary, Ok)};
      && Accomplishes(replace, binary + {Call(ProbeSocket, Yes)} + {Call(CheckBackend, Yes)}, op)
      && Accomplishes(replace, binary + {Call(ProbeSocket, No)}, op)
    ensures Accomplishes(Must(EnsureBinary, Probe(Ask(CheckBackend, replace, GiveUp), replace)), done, op)
  {
    var binary := done + {Call(EnsureBinary, Ok)};
    assert Accomplishes(Ask(CheckBackend, replace, GiveUp), binary + {Call(ProbeSocket, Yes)}, op);
  }

  lemma ThenStartAccomplishes(done: set<Call>)
    requires Call(CheckBootstrapped, Yes) in done
    ensures Accomplishes(StartScript(), done, EnsureRemoteControlStarted)
  {
  }

  /** Setting what is on file already. */
  lemma SetSameAccomplishes(after: Script, done: set<Call>, op: Op)
    requires Accomplishes(after, done + {Call(CheckBackend, Yes)} + {Call(AwaitReady, Ok)} + {Call(CallSocket, Ok)}, op)
    requires Accomplishes(after, done + {Call(CheckBackend, No)} + {Call(ProbeSocket, No)}, op)
    ensures Accomplishes(SetFrom(true, true, after), done, op)
  {
    var running := done + {Call(CheckBackend, Yes)};
    assert Accomplishes(Must(AwaitReady, Must(CallSocket, after)), running, op);
  }

  lemma RelaunchAccomplishes(after: Script, done: set<Call>, op: Op)
    requires
      var stopped := done + {Call(SaveSettings, Ok)} + {Call(EnsureBinary, Ok)} + {Call(StopBackend, Ok)};
      Accomplishes(after, stopped + {Call(LaunchBackend, Ok)} + {Call(AwaitReady, Ok)}, op)
    ensures
      Accomplishes(Must(SaveSettings, Must(EnsureBinary, Must(StopBackend, Must(LaunchBackend, Must(AwaitReady, after))))), done, op)
  {
    var saved := done + {Call(SaveSettings, Ok)};
    var launch := Must(LaunchBackend, Must(AwaitReady, after));
    assert Accomplishes(launch, saved + {Call(EnsureBinary, Ok)} + {Call(StopBackend, Ok)}, op);
    assert Accomplishes(Must(EnsureBinary, Must(StopBackend, launch)), saved, op);
  }

  /** Setting something else than what is on file. */
  lemma SetOtherAccomplishes(after: Script, done: set<Call>, op: Op)
    requires
      var saved := done + {Call(CheckBackend, Yes)} + {Call(SaveSettings, Ok)};
      var stopped := saved + {Call(EnsureBinary, Ok)} + {Call(StopBackend, Ok)};
      Accomplishes(after, stopped + {Call(LaunchBackend, Ok)} + {Call(AwaitReady, Ok)}, op)
    requires Accomplishes(after, done + {Call(CheckBackend, No)} + {Call(ProbeSocket, No)} + {Call(SaveSettings, Ok)}, op)
    ensures Accomplishes(SetFrom(true, false, after), done, op)
  {
    RelaunchAccomplishes(after, done + {Call(CheckBackend, Yes)}, op);
    var idle := done + {Call(CheckBackend, No)};
    assert Accomplishes(Must(SaveSettings, after), idle + {Call(ProbeSocket, No)}, op);
    assert Accomplishes(Probe(GiveUp, Must(SaveSettings, after)), idle, op);
  }

  lemma SetThenStartAccomplishes(done: set<Call>, current: bool)
    requires Call(CheckBootstrapped, Yes) in done
    ensures Accomplishes(SetFrom(true, current, StartScript()), done, EnsureRemoteControlStarted)
  {
    var running, idle := done + {Call(CheckBackend, Yes)}, done + {Call(CheckBackend, No)} + {Call(ProbeSocket, No)};
    if current {
      ThenStartAccomplishes(running + {Call(AwaitReady, Ok)} + {Call(CallSocket, Ok)});
      ThenStartAccomplishes(idle);
      SetSameAccomplishes(StartScript(), done, EnsureRemoteControlStarted);
    } else {
      var saved := running + {Call(SaveSettings, Ok)} + {Call(EnsureBinary, Ok)} + {Call(StopBackend, Ok)};
      ThenStartAccomplishes(saved + {Call(LaunchBackend, Ok)} + {Call(AwaitReady, Ok)});
      ThenStartAccomplishes(idle + {Call(SaveSettings, Ok)});
      SetOtherAccomplishes(StartScript(), done, EnsureRemoteControlStarted);
    }
  }

  lemma EnsureAccomplishes()
    ensures Accomplishes(EnsureScript(), {}, EnsureRemoteControlStarted)
  {
    var loaded: set<Call> := {} + {Call(LoadSettings, Ok)};
    var yes := loaded + {Call(CheckBootstrapped, Yes)};
    SetThenStartAccomplishes(yes + {Call(LoadSettings, Ok)}, true);
    SetThenStartAccomplishes(yes + {Call(LoadSettings, Ok)}, false);
    BootstrapAccomplishes(loaded + {Call(CheckBootstrapped, No)}, EnsureRemoteControlStarted);
    EnsurePathsAccomplish(SetFrom(true, true, StartScript()), SetFrom(true, false, StartScript()), BootstrapScript());
  }

  lemma EnsurePathsAccomplish(ifEnabled: Script, ifDisabled: Script, bootstrap: Script)
    requires
      var loaded: set<Call> := {} + {Call(LoadSettings, Ok)};
      var yes := loaded + {Call(CheckBootstrapped, Yes)} + {Call(LoadSettings, Ok)};
      && Accomplishes(ifEnabled, yes, EnsureRemoteControlStarted)
      && Accomplishes(ifDisabled, yes, EnsureRemoteControlStarted)
      && Accomplishes(bootstrap, loaded + {Call(CheckBootstrapped, No)}, EnsureRemoteControlStarted)
    ensures
      Accomplishes(Must(LoadSettings, Ask(CheckBootstrapped, Load(ifEnabled, ifDisabled), bootstrap)), {}, EnsureRemoteControlStarted)
  {
    var loaded: set<Call> := {} + {Call(LoadSettings, Ok)};
    assert Accomplishes(Load(ifEnabled, ifDisabled), loaded + {Call(CheckBootstrapped, Yes)}, EnsureRemoteControlStarted);
  }

  lemma ScriptsAccomplish(op: Op)
    ensures Accomplishes(ScriptOf(op), {}, op)
  {
    match op {
      case Start => StartAccomplishes();
      case Restart => RestartAccomplishes();
      case Stop => StopAccomplishes();
      case SetRemoteControl(enabled) => SetAccomplishes(enabled);
      case Bootstrap(_) => BootstrapAccomplishes({}, op);
      case EnsureRemoteControlStarted => EnsureAccomplishes();
      case TryRestartIfRunning(always, reexec) => UpdaterAccomplishes(always, reexec);
    }
  }

  // ---------------------------------------------------------------- along the calls of a run

  /** The replies a call can have. */
  predicate Fits(call: Returned) {
    if Asks(call.pc) then !call.reply.Ok? else call.pc.ProbeSocket? || call.reply.Ok? || call.reply.Err?
  }

  lemma {:induction false} MadeFit(w0: World, actions: seq<Action>, p: Proc)
    ensures forall i :: 0 <= i < |Made(w0, actions, p)| ==> Fits(Made(w0, actions, p)[i])
  {
    if actions != [] {
      MadeFit(w0, actions[..|actions| - 1], p);
    }
  }

  lemma ResumeAccomplishes(script: Script, done: set<Call>, op: Op, call: Returned)
    requires Accomplishes(script, done, op) && CallOf(script) == Some(call.pc) && Fits(call)
    ensures Accomplishes(Resume(script, call.reply, call.file), done + {Heard(call.pc, call.reply)}, op)
  {
  }

  lemma NotedSnoc(calls: seq<Returned>, call: Returned)
    ensures Noted(calls + [call]) == Noted(calls) + {Heard(call.pc, call.reply)}
  {
    var all := calls + [call];
    forall c | c in Noted(calls) + {Heard(call.pc, call.reply)}
      ensures c in Noted(all)
    {
      if c in Noted(calls) {
        var i :| 0 <= i < |calls| && c == Heard(calls[i].pc, calls[i].reply);
        assert all[i] == calls[i];
      } else {
        assert all[|calls|] == call;
      }
    }
  }

  lemma {:induction false} PathAccomplishes(script: Script, op: Op, calls: seq<Returned>)
    requires Accomplishes(script, {}, op) && Legal(script, calls) && forall i :: 0 <= i < |calls| ==> Fits(calls[i])
    ensures Accomplishes(Follow(script, calls), Noted(calls), op)
  {
    if calls == [] {
      assert Noted(calls) == {};
    } else {
      var n := |calls| - 1;
      assert calls == calls[..n] + [calls[n]];
      PathAccomplishes(script, op, calls[..n]);
      NotedSnoc(calls[..n], calls[n]);
      ResumeAccomplishes(Follow(script, calls[..n]), Noted(calls[..n]), op, calls[n]);
    }
  }

  /** Over all runs and interleavings: an operation that succeeds has accomplished what it is for. */
  lemma SuccessAccomplishes(setting: bool, actions: seq<Action>, p: Proc)
    requires
      var w := Run(InitialWorld(setting), actions);
      p in w.procs && w.procs[p].pc == Done(Succeeded)
    ensures Begun(actions, p).Some?
    ensures Accomplished(Begun(actions, p).value, Noted(Made(InitialWorld(setting), actions, p)))
  {
    var w0 := InitialWorld(setting);
    EveryProcessFollowsItsScript(setting, actions, p);
    var op := Begun(actions, p).value;
    ScriptsAccomplish(op);
    MadeFit(w0, actions, p);
    PathAccomplishes(ScriptOf(op), op, Made(w0, actions, p));
  }

  /** The calls of `p` are steps of the run. */
  lemma {:induction false} MadeInRun(w0: World, actions: seq<Action>, p: Proc, call: Returned)
    requires call in Made(w0, actions, p)
    ensures exists j :: 0 <= j < |actions| && Returns(Run(w0, actions[..j]), actions[j], p, call.pc, call.reply)
  {
    var n := |actions| - 1;
    if call in Made(w0, actions[..n], p) {
      MadeInRun(w0, actions[..n], p, call);
      var j :| 0 <= j < n && Returns(Run(w0, actions[..n][..j]), actions[..n][j], p, call.pc, call.reply);
      assert actions[..n][..j] == actions[..j];
    } else {
      assert Returns(Run(w0, actions[..n]), actions[n], p, call.pc, call.reply);
    }
  }

  lemma NotedInRun(w0: World, actions: seq<Action>, p: Proc, pc: Pc, reply: Reply)
    requires Call(pc, reply) in Noted(Made(w0, actions, p)) && !pc.ProbeSocket?
    ensures exists j :: 0 <= j < |actions| && Returns(Run(w0, actions[..j]), actions[j], p, pc, reply)
  {
    var calls := Made(w0, actions, p);
    var i :| 0 <= i < |calls| && Call(pc, reply) == Heard(calls[i].pc, calls[i].reply);
    MadeInRun(w0, actions, p, calls[i]);
  }

  /** A restart or bootstrap that succeeds has had its own launch return, at some point of the run. */
  lemma RestartHasLaunched(setting: bool, actions: seq<Action>, p: Proc)
    requires
      var w := Run(InitialWorld(setting), actions);
      p in w.procs && w.procs[p].pc == Done(Succeeded)
    ensures
      var w0 := InitialWorld(setting);
      && Begun(actions, p).Some?
      && (Begun(actions, p).value.Restart? || Begun(actions, p).value.Bootstrap? ==>
            exists j :: 0 <= j < |actions| && Launches(Run(w0, actions[..j]), actions[j], p))
  {
    SuccessAccomplishes(setting, actions, p);
    if Begun(actions, p).value.Restart? || Begun(actions, p).value.Bootstrap? {
      NotedInRun(InitialWorld(setting), actions, p, LaunchBackend, Ok);
    }
  }
}
