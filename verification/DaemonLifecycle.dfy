/**
 The app-server daemon's lifecycle operations (motyga-rs/app-server-daemon/src/lib.rs) as a state
 machine over many processes that share a lock file, a settings file and a backend.

 `Advance` is the control flow of the source: where an operation continues after each call it makes,
 given what the call returned. `Turn` lets one process make its next call against the shared world.
 A process may crash at any point (its file lock is released), the managed backend may die, and a
 server the daemon does not manage may come and go. A return value the world rules out is not a step.

 Assumptions about code outside the model: a settings save is atomic, a successful backend stop leaves
 no managed backend running, a failed launch leaves none either, `is_starting_or_running` tells the
 truth, and a live unmanaged server answers probes.
 */
module DaemonLifecycle {
  import opened Options

  type Proc = nat

  datatype Op =
    | Start
    | Restart
    | Stop
    | SetRemoteControl(enabled: bool)
    | Bootstrap(enabled: bool)
    | EnsureRemoteControlStarted
    | TryRestartIfRunning(always: bool, reexec: bool)

  /** `Busy` is the updater finding the lock taken. */
  datatype Result = Succeeded | Failed | Busy

  /** The call an operation is about to make. */
  datatype Pc =
    | AcquireLock | LoadSettings | ProbeSocket | CheckBackend | EnsureBinary | RecheckBackend | SaveSettings
    | StopBackend | LaunchBackend | CheckUpdater | StopUpdater | StartUpdater | AwaitReady | CallSocket
    | CheckBootstrapped | CompareVersion | ReexecUpdater
    | Done(result: Result)

  /** What a call returned: an error, success, or a yes or no. */
  datatype Reply = Err | Ok | Yes | No

  datatype Local = Local(
    op: Op,
    pc: Pc,
    settings: bool,      // the remote-control flag a launch would use
    answered: bool,      // the probe in this operation was answered
    found: bool,         // the first backend check found a managed backend
    saved: bool,         // this operation has saved settings
    thenStart: bool,     // `ensure_remote_control_started` goes on to `start`
    clear: bool,         // history: this section saw no managed backend, or stopped it, and has not launched since
    dirty: bool)         // history: this section saved settings and has not launched since

  function Fresh(op: Op): Local {
    Local(op, AcquireLock, false, false, false, false, false, false, false)
  }

  // ---------------------------------------------------------------- control flow

  function Fail(l: Local): Local {
    l.(pc := Done(Failed))
  }

  function Finish(l: Local): Local {
    if l.thenStart then l.(op := Start, pc := LoadSettings, thenStart := false, saved := false, dirty := false)
    else l.(pc := Done(Succeeded), dirty := false)
  }

  function Enter(l: Local): Local {
    match l.op
    case Bootstrap(enabled) => l.(pc := EnsureBinary, settings := enabled)
    case _ => l.(pc := LoadSettings)
  }

  function AfterLoad(l: Local, saved: bool): Local {
    var loaded := l.(settings := saved);
    match l.op
    case Start => loaded.(pc := ProbeSocket)
    case Restart => loaded.(pc := ProbeSocket)
    case EnsureRemoteControlStarted => loaded.(pc := CheckBootstrapped)
    case _ => loaded.(pc := CheckBackend)
  }

  /** The point where `set_remote_control_locked` compares the loaded setting with the wanted one. */
  function CompareSetting(l: Local): Local {
    if l.op == SetRemoteControl(l.settings) then (if l.found then l.(pc := AwaitReady) else Finish(l))
    else l.(pc := SaveSettings)
  }

  datatype RestartDecision = NotReady | AlreadyCurrent | DoRestart

  /** `restart_decision`, with the version comparison as a yes or no. */
  function Decide(always: bool, ready: bool, sameVersion: bool): RestartDecision {
    if !always && !ready then NotReady
    else if !always && sameVersion then AlreadyCurrent
    else DoRestart
  }

  function FollowDecision(l: Local, decision: RestartDecision): Local {
    if decision.DoRestart? then l.(pc := StopBackend) else Finish(l)
  }

  function AfterProbe(l: Local, yes: bool): Local {
    var noted := l.(answered := yes);
    match l.op
    case Start => noted.(pc := CheckBackend)
    case Restart => noted.(pc := if yes then CheckBackend else EnsureBinary)
    case Bootstrap(_) => noted.(pc := if yes then CheckBackend else SaveSettings)
    case Stop => if yes then Fail(noted) else Finish(noted)
    case SetRemoteControl(_) => if yes then Fail(noted) else CompareSetting(noted)
    case TryRestartIfRunning(always, _) =>
      if l.found then (if yes then noted.(pc := CompareVersion) else FollowDecision(noted, Decide(always, false, false)))
      else if yes then Fail(noted) else Finish(noted)
    case EnsureRemoteControlStarted => Fail(noted)
  }

  function AfterCheck(l: Local, yes: bool): Local {
    var noted := l.(found := yes, clear := !yes);
    match l.op
    case Start =>
      if l.answered then Finish(noted) else noted.(pc := if yes then AwaitReady else EnsureBinary)
    case Restart => if yes then noted.(pc := EnsureBinary) else Fail(noted)
    case Bootstrap(_) => if yes then noted.(pc := SaveSettings) else Fail(noted)
    case Stop => noted.(pc := if yes then StopBackend else ProbeSocket)
    case SetRemoteControl(_) => if yes then CompareSetting(noted) else noted.(pc := ProbeSocket)
    case TryRestartIfRunning(_, _) => noted.(pc := ProbeSocket)
    case EnsureRemoteControlStarted => Fail(noted)
  }

  function AfterBinary(l: Local): Local {
    match l.op
    case Start => l.(pc := LaunchBackend)
    case Restart => l.(pc := RecheckBackend)
    case Bootstrap(_) => l.(pc := ProbeSocket)
    case _ => l.(pc := StopBackend)
  }

  function AfterSave(l: Local): Local {
    var noted := l.(saved := true, dirty := true);
    match l.op
    case SetRemoteControl(enabled) =>
      if l.found then noted.(settings := enabled, pc := EnsureBinary) else Finish(noted.(settings := enabled))
    case _ => noted.(pc := RecheckBackend)
  }

  function AfterReady(l: Local): Local {
    match l.op
    case SetRemoteControl(_) => if l.saved then Finish(l) else l.(pc := CallSocket)
    case TryRestartIfRunning(_, reexec) => if reexec then l.(pc := ReexecUpdater) else Finish(l)
    case _ => Finish(l)
  }

  function AfterBootstrapped(l: Local, yes: bool): Local {
    if yes then l.(op := SetRemoteControl(true), thenStart := true, pc := LoadSettings)
    else l.(op := Bootstrap(true), settings := true, pc := EnsureBinary)
  }

  function AfterRecheck(l: Local, yes: bool): Local {
    l.(pc := if yes then StopBackend else LaunchBackend, clear := !yes)
  }

  function AfterStop(l: Local): Local {
    if l.op.Stop? then Finish(l.(clear := true)) else l.(pc := LaunchBackend, clear := true)
  }

  function AfterLaunch(l: Local): Local {
    l.(pc := if l.op.Bootstrap? then CheckUpdater else AwaitReady, clear := false, dirty := false)
  }

  function AfterVersion(l: Local, same: bool): Local {
    FollowDecision(l, Decide(l.op.TryRestartIfRunning? && l.op.always, true, same))
  }

  /** The calls after which an operation goes on without looking at anything else. */
  function AfterRest(l: Local, yes: bool): Local {
    match l.pc
    case CheckUpdater => l.(pc := if yes then StopUpdater else StartUpdater)
    case StopUpdater => l.(pc := StartUpdater)
    case StartUpdater => l.(pc := AwaitReady)
    case CallSocket => Finish(l)
    case ReexecUpdater => Finish(l)
    case _ => l
  }

  /** Where an operation that holds the lock continues; `saved` is what the settings file holds. */
  function Advance(l: Local, saved: bool, reply: Reply): Local {
    if reply.Err? && !l.pc.ProbeSocket? then Fail(l)
    else
      match l.pc
      case LoadSettings => AfterLoad(l, saved)
      case ProbeSocket => AfterProbe(l, reply.Yes?)
      case CheckBackend => AfterCheck(l, reply.Yes?)
      case EnsureBinary => AfterBinary(l)
      case RecheckBackend => AfterRecheck(l, reply.Yes?)
      case SaveSettings => AfterSave(l)
      case StopBackend => AfterStop(l)
      case LaunchBackend => AfterLaunch(l)
      case AwaitReady => AfterReady(l)
      case CheckBootstrapped => AfterBootstrapped(l, reply.Yes?)
      case CompareVersion => AfterVersion(l, reply.Yes?)
      case _ => AfterRest(l, reply.Yes?)
  }

  predicate InSection(l: Local) {
    !l.pc.AcquireLock? && !l.pc.Done?
  }

  // ---------------------------------------------------------------- the shared world

  datatype Effect = Save | StopIt | Launch | UpdaterStop | UpdaterStart

  /** One attempt to change shared state: who, what, whether the lock was theirs, whether their section
      had cleared the way, and whether no managed backend was running. */
  datatype Entry = Entry(proc: Proc, effect: Effect, held: bool, clear: bool, vacant: bool)

  datatype World = World(
    saved: bool,
    managed: Option<bool>,   // the launch flag of the running managed backend
    unmanaged: bool,
    updater: bool,
    holder: Option<Proc>,
    procs: map<Proc, Local>,
    log: seq<Entry>,         // history
    stale: bool)             // history: an operation failed after its save and before its launch, and nothing launched since

  function InitialWorld(saved: bool): World {
    World(saved, None, false, false, None, map[], [], false)
  }

  /** The replies the world allows to the call at `pc`. */
  predicate Possible(w: World, pc: Pc, reply: Reply) {
    match pc
    case ProbeSocket => (reply.Yes? ==> w.managed.Some? || w.unmanaged) && (!reply.Yes? ==> !w.unmanaged)
    case CheckBackend => reply.Err? || (reply.Yes? && w.managed.Some?) || (reply.No? && w.managed.None?)
    case RecheckBackend => reply.Err? || (reply.Yes? && w.managed.Some?) || (reply.No? && w.managed.None?)
    case CheckUpdater => reply.Err? || (reply.Yes? && w.updater) || (reply.No? && !w.updater)
    case CheckBootstrapped => reply.Err? || (reply.Yes? && w.updater) || (reply.No? && !w.updater)
    case CompareVersion => !reply.Ok?
    case _ => reply.Err? || reply.Ok?
  }

  function EffectOf(pc: Pc): Option<Effect> {
    match pc
    case SaveSettings => Some(Save)
    case StopBackend => Some(StopIt)
    case LaunchBackend => Some(Launch)
    case StopUpdater => Some(UpdaterStop)
    case StartUpdater => Some(UpdaterStart)
    case _ => None
  }

  function SavedValue(l: Local): bool {
    if l.op.SetRemoteControl? then l.op.enabled else l.settings
  }

  /** What a call that returned success does to the world. A launch with a backend already running
      launches nothing. */
  function Affect(w: World, l: Local): World {
    match l.pc
    case SaveSettings => w.(saved := SavedValue(l))
    case StopBackend => w.(managed := None)
    case LaunchBackend => w.(managed := if w.managed.Some? then w.managed else Some(l.settings), stale := false)
    case StopUpdater => w.(updater := false)
    case StartUpdater => w.(updater := true)
    case _ => w
  }

  function Logged(w: World, p: Proc, l: Local): World {
    var effect := EffectOf(l.pc);
    if effect.None? then w
    else w.(log := w.log + [Entry(p, effect.value, w.holder == Some(p), l.clear, w.managed.None?)])
  }

  /** A process continues as `l`; a finished one releases the lock. */
  function Continue(w: World, p: Proc, l: Local): World {
    var next := w.(procs := w.procs[p := l]);
    if l.pc.Done? then Release(next, p, l.pc.result.Failed? && l.dirty) else next
  }

  function Release(w: World, p: Proc, failedDirty: bool): World {
    w.(holder := if w.holder == Some(p) then None else w.holder, stale := w.stale || failedDirty)
  }

  /** Polling the lock: the updater gives up at once, the others go on or time out. */
  function TryAcquire(w: World, p: Proc, l: Local, reply: Reply): World {
    if reply.Err? then w.(procs := w.procs[p := Fail(l)])
    else if w.holder.None? then w.(holder := Some(p), procs := w.procs[p := Enter(l)])
    else if l.op.TryRestartIfRunning? then w.(procs := w.procs[p := l.(pc := Done(Busy))])
    else w
  }

  function Turn(w: World, p: Proc, reply: Reply): World {
    if p !in w.procs then w
    else
      var l := w.procs[p];
      if l.pc.AcquireLock? then TryAcquire(w, p, l, reply)
      else if l.pc.Done? || !Possible(w, l.pc, reply) then w
      else
        var logged := Logged(w, p, l);
        var affected := if reply.Err? then logged else Affect(logged, l);
        Continue(affected, p, Advance(l, affected.saved, reply))
  }

  datatype Action =
    | Spawn(proc: Proc, op: Op)
    | Step(proc: Proc, reply: Reply)
    | Crash(proc: Proc)
    | BackendDies
    | UpdaterDies
    | Unmanaged(up: bool)

  function Next(w: World, action: Action): World {
    match action
    case Spawn(p, op) => if p in w.procs then w else w.(procs := w.procs[p := Fresh(op)])
    case Step(p, reply) => Turn(w, p, reply)
    case Crash(p) =>
      if p in w.procs && !w.procs[p].pc.Done? then Continue(w, p, Fail(w.procs[p])) else w
    case BackendDies => w.(managed := None)
    case UpdaterDies => w.(updater := false)
    case Unmanaged(up) => w.(unmanaged := up)
  }

  function Run(w: World, actions: seq<Action>): World
    decreases actions
  {
    if actions == [] then w else Run(Next(w, actions[0]), actions[1..])
  }

  // ---------------------------------------------------------------- the invariant

  /** Between loading and, for bootstrap, saving, the settings in hand are those on file. */
  predicate SettingsInHand(l: Local) {
    !l.pc.LoadSettings? && !(l.op.Bootstrap? && !l.saved)
  }

  /** The shape of the control flow that the safety argument needs, without the world. */
  predicate FlowOk(l: Local) {
    && (l.dirty && InSection(l) ==>
          l.saved && (l.pc.EnsureBinary? || l.pc.RecheckBackend? || l.pc.StopBackend? || l.pc.LaunchBackend?))
    && (l.saved ==> l.op.SetRemoteControl? || l.op.Bootstrap?)
    && (l.thenStart ==> l.op.SetRemoteControl?)
    && PcOk(l)
  }

  predicate PcOk(l: Local) {
    match l.pc
    case AcquireLock => !l.dirty && !l.saved && !l.clear && !l.thenStart
    case LoadSettings => !l.saved && !l.dirty
    case CheckBootstrapped => !l.saved && !l.thenStart && l.op.EnsureRemoteControlStarted?
    case CompareVersion => l.op.TryRestartIfRunning?
    case ProbeSocket => !l.saved && (l.op.SetRemoteControl? ==> l.clear && !l.found)
    case CheckBackend => !l.saved
    case EnsureBinary => (l.op.Bootstrap? ==> !l.saved) && (l.op.Start? ==> l.clear)
    case RecheckBackend => SettingsInHand(l)
    case SaveSettings => !l.saved && (l.op.SetRemoteControl? || l.op.Bootstrap?) && (l.op.SetRemoteControl? ==> l.found || l.clear)
    case StopBackend => SettingsInHand(l)
    case LaunchBackend => l.clear && SettingsInHand(l)
    case _ => true
  }

  /** What a process in its critical section may rely on. */
  predicate Matches(saved: bool, managed: Option<bool>, l: Local) {
    && (InSection(l) && SettingsInHand(l) ==> l.settings == saved)
    && (InSection(l) && l.clear ==> managed.None?)
  }

  predicate LocalOk(w: World, p: Proc)
    requires p in w.procs
  {
    && FlowOk(w.procs[p])
    && (InSection(w.procs[p]) ==> w.holder == Some(p))
    && Matches(w.saved, w.managed, w.procs[p])
  }

  predicate EntryOk(e: Entry) {
    e.held && (e.effect.Launch? ==> e.clear && e.vacant)
  }

  predicate Explained(w: World) {
    w.managed.Some? && w.managed.value != w.saved ==>
      w.stale || (w.holder.Some? && w.holder.value in w.procs && InSection(w.procs[w.holder.value]) && w.procs[w.holder.value].dirty)
  }

  predicate Inv(w: World) {
    && (forall p :: p in w.procs ==> LocalOk(w, p))
    && (forall i :: 0 <= i < |w.log| ==> EntryOk(w.log[i]))
    && Explained(w)
    && (w.holder.Some? ==> w.holder.value in w.procs && InSection(w.procs[w.holder.value]))
  }

  // ---------------------------------------------------------------- preservation

  /** Past the lock, and in good shape. */
  predicate Ongoing(l: Local) {
    FlowOk(l) && !l.pc.AcquireLock?
  }

  lemma FlowAfterLoad(l: Local, saved: bool)
    requires FlowOk(l) && l.pc.LoadSettings?
    ensures Ongoing(AfterLoad(l, saved))
  {
  }

  lemma FlowAfterProbe(l: Local, yes: bool)
    requires FlowOk(l) && l.pc.ProbeSocket?
    ensures Ongoing(AfterProbe(l, yes))
  {
    match l.op {
      case SetRemoteControl(_) => FlowCompare(l.(answered := yes));
      case TryRestartIfRunning(_, _) => FlowRestart(l, yes);
      case _ =>
    }
  }

  lemma FlowCompare(l: Local)
    requires FlowOk(l) && !l.dirty && !l.saved && l.op.SetRemoteControl? && (l.found || l.clear) && InSection(l)
    ensures Ongoing(CompareSetting(l))
  {
  }

  lemma FlowRestart(l: Local, yes: bool)
    requires FlowOk(l) && l.pc.ProbeSocket? && l.op.TryRestartIfRunning?
    ensures Ongoing(AfterProbe(l, yes))
  {
  }

  lemma FlowAfterCheck(l: Local, yes: bool)
    requires FlowOk(l) && l.pc.CheckBackend?
    ensures Ongoing(AfterCheck(l, yes))
  {
  }

  lemma FlowAfterBinary(l: Local)
    requires FlowOk(l) && l.pc.EnsureBinary?
    ensures Ongoing(AfterBinary(l))
  {
  }

  lemma FlowAfterRecheck(l: Local, yes: bool)
    requires FlowOk(l) && l.pc.RecheckBackend?
    ensures Ongoing(AfterRecheck(l, yes))
  {
  }

  lemma FlowAfterSave(l: Local)
    requires FlowOk(l) && l.pc.SaveSettings?
    ensures Ongoing(AfterSave(l))
  {
  }

  lemma FlowAfterStop(l: Local)
    requires FlowOk(l) && l.pc.StopBackend?
    ensures Ongoing(AfterStop(l))
  {
  }

  lemma FlowAfterLaunch(l: Local)
    requires FlowOk(l) && l.pc.LaunchBackend?
    ensures Ongoing(AfterLaunch(l))
  {
  }

  lemma FlowAfterReady(l: Local)
    requires FlowOk(l) && l.pc.AwaitReady?
    ensures Ongoing(AfterReady(l))
  {
  }

  lemma FlowAfterBootstrapped(l: Local, yes: bool)
    requires FlowOk(l) && l.pc.CheckBootstrapped?
    ensures Ongoing(AfterBootstrapped(l, yes))
  {
  }

  lemma FlowAfterVersion(l: Local, same: bool)
    requires FlowOk(l) && l.pc.CompareVersion?
    ensures Ongoing(AfterVersion(l, same))
  {
  }

  /** The calls `AfterRest` continues from. */
  predicate Rest(pc: Pc) {
    pc.CheckUpdater? || pc.StopUpdater? || pc.StartUpdater? || pc.CallSocket? || pc.ReexecUpdater?
  }

  lemma FlowAfterRest(l: Local, yes: bool)
    requires FlowOk(l) && Rest(l.pc)
    ensures Ongoing(AfterRest(l, yes))
  {
  }

  lemma FlowKept(l: Local, saved: bool, reply: Reply)
    requires FlowOk(l) && InSection(l)
    ensures Ongoing(Advance(l, saved, reply))
  {
    if reply.Err? && !l.pc.ProbeSocket? {
      assert Ongoing(Fail(l));
    } else {
      match l.pc {
        case LoadSettings => FlowAfterLoad(l, saved);
        case ProbeSocket => FlowAfterProbe(l, reply.Yes?);
        case CheckBackend => FlowAfterCheck(l, reply.Yes?);
        case EnsureBinary => FlowAfterBinary(l);
        case RecheckBackend => FlowAfterRecheck(l, reply.Yes?);
        case SaveSettings => FlowAfterSave(l);
        case StopBackend => FlowAfterStop(l);
        case LaunchBackend => FlowAfterLaunch(l);
        case AwaitReady => FlowAfterReady(l);
        case CheckBootstrapped => FlowAfterBootstrapped(l, reply.Yes?);
        case CompareVersion => FlowAfterVersion(l, reply.Yes?);
        case _ => FlowAfterRest(l, reply.Yes?);
      }
    }
  }

  lemma EnterOk(l: Local)
    requires FlowOk(l) && l.pc.AcquireLock?
    ensures FlowOk(Enter(l)) && InSection(Enter(l)) && !Enter(l).clear && !Enter(l).dirty && !SettingsInHand(Enter(l))
  {
  }

  /** The world after the call at `l.pc` returned `reply`. */
  function Called(w: World, p: Proc, l: Local, reply: Reply): World {
    if reply.Err? then Logged(w, p, l) else Affect(Logged(w, p, l), l)
  }

  lemma MatchesAfterLoad(saved: bool, managed: Option<bool>, l: Local)
    requires FlowOk(l) && l.pc.LoadSettings? && Matches(saved, managed, l)
    ensures Matches(saved, managed, AfterLoad(l, saved))
  {
  }

  lemma MatchesAfterProbe(saved: bool, managed: Option<bool>, l: Local, yes: bool)
    requires FlowOk(l) && l.pc.ProbeSocket? && Matches(saved, managed, l)
    ensures Matches(saved, managed, AfterProbe(l, yes))
  {
  }

  lemma MatchesAfterCheck(saved: bool, managed: Option<bool>, l: Local, yes: bool)
    requires FlowOk(l) && l.pc.CheckBackend? && Matches(saved, managed, l) && (yes <==> managed.Some?)
    ensures Matches(saved, managed, AfterCheck(l, yes))
  {
  }

  lemma MatchesAfterBinary(saved: bool, managed: Option<bool>, l: Local)
    requires FlowOk(l) && l.pc.EnsureBinary? && Matches(saved, managed, l)
    ensures Matches(saved, managed, AfterBinary(l))
  {
  }

  lemma MatchesAfterRecheck(saved: bool, managed: Option<bool>, l: Local, yes: bool)
    requires FlowOk(l) && l.pc.RecheckBackend? && Matches(saved, managed, l) && (yes <==> managed.Some?)
    ensures Matches(saved, managed, AfterRecheck(l, yes))
  {
  }

  lemma MatchesAfterSave(saved: bool, managed: Option<bool>, l: Local)
    requires FlowOk(l) && l.pc.SaveSettings? && Matches(saved, managed, l)
    ensures Matches(SavedValue(l), managed, AfterSave(l))
  {
  }

  lemma MatchesAfterStop(saved: bool, managed: Option<bool>, l: Local)
    requires FlowOk(l) && l.pc.StopBackend? && Matches(saved, managed, l)
    ensures Matches(saved, None, AfterStop(l))
  {
  }

  lemma MatchesAfterLaunch(saved: bool, managed: Option<bool>, l: Local)
    requires FlowOk(l) && l.pc.LaunchBackend? && Matches(saved, managed, l)
    ensures Matches(saved, Some(l.settings), AfterLaunch(l))
  {
  }

  lemma MatchesAfterReady(saved: bool, managed: Option<bool>, l: Local)
    requires FlowOk(l) && l.pc.AwaitReady? && Matches(saved, managed, l)
    ensures Matches(saved, managed, AfterReady(l))
  {
  }

  lemma MatchesAfterBootstrapped(saved: bool, managed: Option<bool>, l: Local, yes: bool)
    requires FlowOk(l) && l.pc.CheckBootstrapped? && Matches(saved, managed, l)
    ensures Matches(saved, managed, AfterBootstrapped(l, yes))
  {
  }

  lemma MatchesAfterVersion(saved: bool, managed: Option<bool>, l: Local, same: bool)
    requires FlowOk(l) && l.pc.CompareVersion? && Matches(saved, managed, l)
    ensures Matches(saved, managed, AfterVersion(l, same))
  {
  }

  lemma MatchesAfterRest(saved: bool, managed: Option<bool>, l: Local, yes: bool)
    requires FlowOk(l) && Rest(l.pc) && Matches(saved, managed, l)
    ensures Matches(saved, managed, AfterRest(l, yes))
  {
  }

  /** The calls that change what is saved or running. */
  predicate Changes(pc: Pc) {
    pc.SaveSettings? || pc.StopBackend? || pc.LaunchBackend?
  }

  lemma MatchesAdvance(saved: bool, managed: Option<bool>, l: Local, reply: Reply)
    requires FlowOk(l) && InSection(l) && Matches(saved, managed, l) && !Changes(l.pc)
    requires !reply.Err? || l.pc.ProbeSocket?
    requires l.pc.CheckBackend? || l.pc.RecheckBackend? ==> (reply.Yes? <==> managed.Some?)
    ensures Matches(saved, managed, Advance(l, saved, reply))
  {
    match l.pc {
      case LoadSettings => MatchesAfterLoad(saved, managed, l);
      case ProbeSocket => MatchesAfterProbe(saved, managed, l, reply.Yes?);
      case CheckBackend => MatchesAfterCheck(saved, managed, l, reply.Yes?);
      case EnsureBinary => MatchesAfterBinary(saved, managed, l);
      case RecheckBackend => MatchesAfterRecheck(saved, managed, l, reply.Yes?);
      case AwaitReady => MatchesAfterReady(saved, managed, l);
      case CheckBootstrapped => MatchesAfterBootstrapped(saved, managed, l, reply.Yes?);
      case CompareVersion => MatchesAfterVersion(saved, managed, l, reply.Yes?);
      case _ => MatchesAfterRest(saved, managed, l, reply.Yes?);
    }
  }

  lemma CalledQuietly(w: World, p: Proc, l: Local, reply: Reply)
    requires reply.Err? || !Changes(l.pc)
    ensures
      var after := Called(w, p, l, reply);
      after.saved == w.saved && after.managed == w.managed && after.stale == w.stale
  {
  }

  lemma MatchesKept(w: World, p: Proc, l: Local, reply: Reply)
    requires FlowOk(l) && InSection(l) && Matches(w.saved, w.managed, l) && Possible(w, l.pc, reply)
    ensures
      var after := Called(w, p, l, reply);
      Matches(after.saved, after.managed, Advance(l, after.saved, reply))
  {
    if !reply.Err? && Changes(l.pc) {
      MatchesChange(w, p, l, reply);
    } else {
      CalledQuietly(w, p, l, reply);
      if reply.Err? && !l.pc.ProbeSocket? {
        assert Matches(w.saved, w.managed, Fail(l));
      } else {
        MatchesAdvance(w.saved, w.managed, l, reply);
      }
    }
  }

  lemma CalledChange(w: World, p: Proc, l: Local, reply: Reply)
    requires !reply.Err? && Changes(l.pc)
    ensures
      var after := Called(w, p, l, reply);
      && after.saved == (if l.pc.SaveSettings? then SavedValue(l) else w.saved)
      && (l.pc.SaveSettings? ==> after.managed == w.managed)
      && (l.pc.StopBackend? ==> after.managed.None?)
      && (l.pc.LaunchBackend? ==> after.managed == if w.managed.Some? then w.managed else Some(l.settings))
  {
  }

  lemma MatchesChange(w: World, p: Proc, l: Local, reply: Reply)
    requires FlowOk(l) && Matches(w.saved, w.managed, l) && !reply.Err? && Changes(l.pc)
    ensures
      var after := Called(w, p, l, reply);
      Matches(after.saved, after.managed, Advance(l, after.saved, reply))
  {
    CalledChange(w, p, l, reply);
    if l.pc.SaveSettings? {
      MatchesAfterSave(w.saved, w.managed, l);
    } else if l.pc.StopBackend? {
      MatchesAfterStop(w.saved, w.managed, l);
    } else {
      MatchesAfterLaunch(w.saved, w.managed, l);
    }
  }

  /** Only a launch ends the window between a save and the launch it calls for; a failure in between
      leaves the operation marked. */
  lemma DirtyKept(l: Local, saved: bool, reply: Reply)
    requires FlowOk(l) && InSection(l) && l.dirty && (l.pc.LaunchBackend? ==> reply.Err?)
    ensures
      var next := Advance(l, saved, reply);
      next.dirty && (InSection(next) || next.pc == Done(Failed))
  {
  }

  /** `Explained`, seen from the process in its critical section. */
  predicate ExplainedBy(saved: bool, managed: Option<bool>, stale: bool, l: Local) {
    managed.Some? && managed.value != saved ==> stale || (l.dirty && (InSection(l) || l.pc == Done(Failed)))
  }

  lemma ExplainedKept(w: World, p: Proc, l: Local, reply: Reply)
    requires FlowOk(l) && InSection(l) && Matches(w.saved, w.managed, l)
    requires ExplainedBy(w.saved, w.managed, w.stale, l)
    ensures
      var after := Called(w, p, l, reply);
      ExplainedBy(after.saved, after.managed, after.stale, Advance(l, after.saved, reply))
  {
    var after := Called(w, p, l, reply);
    if !reply.Err? && l.pc.SaveSettings? {
      SaveExplained(l, after.managed);
    } else if !reply.Err? && l.pc.LaunchBackend? {
      assert after.managed == Some(l.settings) && l.settings == after.saved;
    } else {
      assert after.saved == w.saved && after.stale == w.stale && (after.managed == w.managed || after.managed.None?);
      if l.dirty {
        DirtyKept(l, after.saved, reply);
      }
    }
  }

  /** After a save there is no managed backend, or the operation goes on to relaunch it. */
  lemma SaveExplained(l: Local, managed: Option<bool>)
    requires FlowOk(l) && l.pc.SaveSettings? && (l.clear ==> managed.None?)
    ensures managed.Some? ==> AfterSave(l).dirty && InSection(AfterSave(l))
  {
  }

  lemma TurnPreserves(w: World, p: Proc, reply: Reply)
    requires Inv(w)
    ensures Inv(Turn(w, p, reply))
  {
    if p in w.procs {
      var l := w.procs[p];
      assert LocalOk(w, p);
      if l.pc.AcquireLock? {
        AcquirePreserves(w, p, reply);
      } else if InSection(l) && Possible(w, l.pc, reply) {
        SectionPreserves(w, p, reply);
      }
    }
  }

  lemma AcquirePreserves(w: World, p: Proc, reply: Reply)
    requires Inv(w) && p in w.procs && w.procs[p].pc.AcquireLock?
    ensures Inv(TryAcquire(w, p, w.procs[p], reply))
  {
    var l := w.procs[p];
    if reply.Err? {
      WaiterEnds(w, p, Failed);
    } else if w.holder.None? {
      WaiterEnters(w, p);
    } else if l.op.TryRestartIfRunning? {
      WaiterEnds(w, p, Busy);
    }
  }

  lemma WaiterEnters(w: World, p: Proc)
    requires Inv(w) && p in w.procs && w.procs[p].pc.AcquireLock? && w.holder.None?
    ensures Inv(w.(holder := Some(p), procs := w.procs[p := Enter(w.procs[p])]))
  {
    var after := w.(holder := Some(p), procs := w.procs[p := Enter(w.procs[p])]);
    assert LocalOk(w, p);
    EnterOk(w.procs[p]);
    forall q | q in after.procs
      ensures LocalOk(after, q)
    {
      if q != p {
        assert LocalOk(w, q);
      }
    }
  }

  /** A process that waits for the lock ends: nothing else changes. */
  lemma WaiterEnds(w: World, p: Proc, result: Result)
    requires Inv(w) && p in w.procs && w.procs[p].pc.AcquireLock? && !result.Succeeded?
    ensures Inv(w.(procs := w.procs[p := w.procs[p].(pc := Done(result))]))
  {
    var after := w.(procs := w.procs[p := w.procs[p].(pc := Done(result))]);
    assert LocalOk(w, p);
    forall q | q in after.procs
      ensures LocalOk(after, q)
    {
      if q != p {
        assert LocalOk(w, q);
      }
    }
  }

  lemma SectionPreserves(w: World, p: Proc, reply: Reply)
    requires Inv(w) && p in w.procs && InSection(w.procs[p]) && Possible(w, w.procs[p].pc, reply)
    ensures Inv(Turn(w, p, reply))
  {
    var l := w.procs[p];
    assert LocalOk(w, p);
    var called := Called(w, p, l, reply);
    var next := Advance(l, called.saved, reply);
    FlowKept(l, called.saved, reply);
    MatchesKept(w, p, l, reply);
    ExplainedKept(w, p, l, reply);
    EntryLogged(w, p, l);
    CalledFrame(w, p, l, reply);
    ContinuePreserves(w, called, p, next);
  }

  /** What the process adds to the log is in order. */
  lemma EntryLogged(w: World, p: Proc, l: Local)
    requires FlowOk(l) && InSection(l) && Matches(w.saved, w.managed, l)
    ensures EffectOf(l.pc).Some? ==> EntryOk(Entry(p, EffectOf(l.pc).value, true, l.clear, w.managed.None?))
  {
  }

  lemma CalledFrame(w: World, p: Proc, l: Local, reply: Reply)
    requires w.holder == Some(p)
    requires EffectOf(l.pc).Some? ==> EntryOk(Entry(p, EffectOf(l.pc).value, true, l.clear, w.managed.None?))
    requires forall i :: 0 <= i < |w.log| ==> EntryOk(w.log[i])
    ensures
      var after := Called(w, p, l, reply);
      && after.holder == w.holder && after.procs == w.procs
      && (forall i :: 0 <= i < |after.log| ==> EntryOk(after.log[i]))
  {
    var logged := Logged(w, p, l);
    AffectFrame(logged, l);
    forall i | 0 <= i < |logged.log|
      ensures EntryOk(logged.log[i])
    {
      if i < |w.log| {
        assert logged.log[i] == w.log[i];
      }
    }
  }

  lemma ContinuePreserves(w: World, called: World, p: Proc, next: Local)
    requires Inv(w) && p in w.procs && InSection(w.procs[p]) && w.holder == Some(p)
    requires called.holder == w.holder && called.procs == w.procs
    requires forall i :: 0 <= i < |called.log| ==> EntryOk(called.log[i])
    requires FlowOk(next) && !next.pc.AcquireLock? && Matches(called.saved, called.managed, next)
    requires ExplainedBy(called.saved, called.managed, called.stale, next)
    ensures Inv(Continue(called, p, next))
  {
    var after := Continue(called, p, next);
    forall q | q in after.procs
      ensures LocalOk(after, q)
    {
      if q != p {
        assert LocalOk(w, q);
      }
    }
  }

  lemma NextPreserves(w: World, action: Action)
    requires Inv(w)
    ensures Inv(Next(w, action))
  {
    var after := Next(w, action);
    match action {
      case Step(p, reply) => TurnPreserves(w, p, reply);
      case Crash(p) => CrashPreserves(w, p);
      case _ =>
        forall q | q in after.procs
          ensures LocalOk(after, q)
        {
          if q in w.procs {
            assert LocalOk(w, q);
          }
        }
    }
  }

  lemma CrashPreserves(w: World, p: Proc)
    requires Inv(w)
    ensures Inv(Next(w, Crash(p)))
  {
    if p in w.procs && !w.procs[p].pc.Done? {
      assert LocalOk(w, p);
      if InSection(w.procs[p]) {
        ContinuePreserves(w, w, p, Fail(w.procs[p]));
      } else {
        WaiterCrashes(w, p);
      }
    }
  }

  lemma WaiterCrashes(w: World, p: Proc)
    requires Inv(w) && p in w.procs && w.procs[p].pc.AcquireLock?
    ensures Inv(Continue(w, p, Fail(w.procs[p])))
  {
    assert LocalOk(w, p);
    WaiterEnds(w, p, Failed);
    assert Continue(w, p, Fail(w.procs[p])) == w.(procs := w.procs[p := w.procs[p].(pc := Done(Failed))]);
  }

  lemma {:induction false} RunPreserves(w: World, actions: seq<Action>)
    requires Inv(w)
    ensures Inv(Run(w, actions))
    decreases actions
  {
    if actions != [] {
      NextPreserves(w, actions[0]);
      RunPreserves(Next(w, actions[0]), actions[1..]);
    }
  }

  // ---------------------------------------------------------------- main results

  /** Lock and start safety, over all interleavings: settings saves and backend stops and starts are only
      ever attempted with the lock held, and each app-server start is issued after the same critical
      section saw no managed backend or stopped it, at a moment when none is running. */
  lemma LockAndStartSafety(saved: bool, actions: seq<Action>)
    ensures
      var w := Run(InitialWorld(saved), actions);
      && (forall i :: 0 <= i < |w.log| ==>
            w.log[i].held && (w.log[i].effect.Launch? ==> w.log[i].clear && w.log[i].vacant))
      && (forall p, q :: p in w.procs && q in w.procs && InSection(w.procs[p]) && InSection(w.procs[q]) ==> p == q)
  {
    RunPreserves(InitialWorld(saved), actions);
    var w := Run(InitialWorld(saved), actions);
    forall p, q | p in w.procs && q in w.procs && InSection(w.procs[p]) && InSection(w.procs[q])
      ensures p == q
    {
      assert LocalOk(w, p) && LocalOk(w, q);
    }
    forall i | 0 <= i < |w.log|
      ensures w.log[i].held && (w.log[i].effect.Launch? ==> w.log[i].clear && w.log[i].vacant)
    {
      assert EntryOk(w.log[i]);
    }
  }

  // ---------------------------------------------------------------- an unmanaged server

  /** A server the daemon does not manage is up, and no managed backend is. */
  predicate Overshadowed(w: World) {
    w.unmanaged && w.managed.None?
  }

  predicate OvershadowedThroughout(w: World, actions: seq<Action>)
    decreases actions
  {
    Overshadowed(w) && (actions == [] || OvershadowedThroughout(Next(w, actions[0]), actions[1..]))
  }

  /** Where an operation that began as `first` can be while it has met only an unmanaged server. */
  predicate Harmless(first: Op, l: Local) {
    && (l.op.Start? ==> first.Start? && !l.thenStart)
    && (l.op.TryRestartIfRunning? ==> first.TryRestartIfRunning?)
    && HarmlessPc(l)
  }

  predicate HarmlessPc(l: Local) {
    match l.pc
    case AcquireLock => true
    case LoadSettings => true
    case CheckBootstrapped => true
    case EnsureBinary => l.op.Bootstrap?
    case ProbeSocket => l.op.Start? || l.op.Restart? || l.op.Bootstrap? || !l.found
    case CheckBackend => l.op.Start? ==> l.answered
    case Done(result) => (result.Succeeded? ==> l.op.Start?) && (result.Busy? ==> l.op.TryRestartIfRunning?)
    case _ => false
  }

  lemma HarmlessProbe(first: Op, l: Local)
    requires Harmless(first, l) && l.pc.ProbeSocket?
    ensures Harmless(first, AfterProbe(l, true))
  {
  }

  lemma HarmlessCheck(first: Op, l: Local)
    requires Harmless(first, l) && l.pc.CheckBackend?
    ensures Harmless(first, AfterCheck(l, false))
  {
  }

  lemma HarmlessLoad(first: Op, l: Local, saved: bool)
    requires Harmless(first, l) && l.pc.LoadSettings?
    ensures Harmless(first, AfterLoad(l, saved))
  {
  }

  lemma HarmlessBootstrapped(first: Op, l: Local, yes: bool)
    requires Harmless(first, l) && l.pc.CheckBootstrapped?
    ensures Harmless(first, AfterBootstrapped(l, yes))
  {
  }

  lemma HarmlessAdvance(first: Op, l: Local, saved: bool, reply: Reply)
    requires Harmless(first, l) && InSection(l)
    requires l.pc.ProbeSocket? ==> reply.Yes?
    requires l.pc.CheckBackend? ==> !reply.Yes?
    ensures Harmless(first, Advance(l, saved, reply)) && EffectOf(l.pc).None?
  {
    if reply.Err? {
      assert Advance(l, saved, reply) == Fail(l);
    } else {
      match l.pc {
        case LoadSettings => HarmlessLoad(first, l, saved);
        case ProbeSocket => HarmlessProbe(first, l);
        case CheckBackend => HarmlessCheck(first, l);
        case EnsureBinary => assert Advance(l, saved, reply) == l.(pc := ProbeSocket);
        case CheckBootstrapped => HarmlessBootstrapped(first, l, reply.Yes?);
      }
    }
  }

  /** How many more calls such an operation makes at most. */
  function Remaining(l: Local): nat {
    var probesFirst := l.op.Start? || l.op.Restart? || l.op.Bootstrap?;
    match l.pc
    case AcquireLock => 5
    case LoadSettings => if l.op.EnsureRemoteControlStarted? then 5 else 3
    case CheckBootstrapped => 4
    case EnsureBinary => 3
    case ProbeSocket => if probesFirst then 2 else 1
    case CheckBackend => if probesFirst then 1 else 2
    case _ => 0
  }

  lemma RemainingProbe(first: Op, l: Local)
    requires Harmless(first, l) && l.pc.ProbeSocket?
    ensures Remaining(AfterProbe(l, true)) < Remaining(l)
  {
  }

  lemma RemainingCheck(first: Op, l: Local)
    requires Harmless(first, l) && l.pc.CheckBackend?
    ensures Remaining(AfterCheck(l, false)) < Remaining(l)
  {
  }

  lemma RemainingLoad(l: Local, saved: bool)
    requires l.pc.LoadSettings?
    ensures Remaining(AfterLoad(l, saved)) < Remaining(l)
  {
  }

  lemma RemainingBootstrapped(l: Local, yes: bool)
    requires l.pc.CheckBootstrapped?
    ensures Remaining(AfterBootstrapped(l, yes)) < Remaining(l)
  {
  }

  lemma RemainingAdvance(first: Op, l: Local, saved: bool, reply: Reply)
    requires Harmless(first, l) && InSection(l)
    requires l.pc.ProbeSocket? ==> reply.Yes?
    requires l.pc.CheckBackend? ==> !reply.Yes?
    ensures Remaining(Advance(l, saved, reply)) < Remaining(l)
  {
    if reply.Err? {
      assert Advance(l, saved, reply) == Fail(l);
    } else {
      match l.pc {
        case LoadSettings => RemainingLoad(l, saved);
        case ProbeSocket => RemainingProbe(first, l);
        case CheckBackend => RemainingCheck(first, l);
        case EnsureBinary => assert Advance(l, saved, reply) == l.(pc := ProbeSocket);
        case CheckBootstrapped => RemainingBootstrapped(l, reply.Yes?);
      }
    }
  }

  /** `action` is a call of `p` in its critical section that returns. */
  predicate Works(w: World, p: Proc, action: Action) {
    action.Step? && action.proc == p && p in w.procs && InSection(w.procs[p]) && Possible(w, w.procs[p].pc, action.reply)
  }

  /** How many calls `p` makes in a run. */
  function CallsOf(w: World, p: Proc, actions: seq<Action>): nat
    decreases actions
  {
    if actions == [] then 0 else (if Works(w, p, actions[0]) then 1 else 0) + CallsOf(Next(w, actions[0]), p, actions[1..])
  }

  /** A call always can return: nothing keeps the operation from going on. */
  lemma NeverStuck(w: World, p: Proc, first: Op)
    requires p in w.procs && Harmless(first, w.procs[p]) && InSection(w.procs[p]) && Overshadowed(w)
    ensures Works(w, p, Step(p, Yes)) || Works(w, p, Step(p, Err))
  {
  }

  /** No log entry after the first `n` is by `p`. */
  predicate NoEntryBy(p: Proc, n: nat, w: World) {
    n <= |w.log| && forall i :: n <= i < |w.log| ==> w.log[i].proc != p
  }

  lemma AffectFrame(w: World, l: Local)
    ensures
      var after := Affect(w, l);
      && after.procs == w.procs && after.holder == w.holder && after.log == w.log
      && (EffectOf(l.pc).None? ==> after == w)
  {
  }

  lemma LoggedOnlyBy(w: World, p: Proc, q: Proc, l: Local, n: nat)
    requires NoEntryBy(p, n, w) && q != p
    ensures NoEntryBy(p, n, Logged(w, q, l))
  {
  }

  lemma TurnIs(w: World, q: Proc, reply: Reply)
    requires q in w.procs && InSection(w.procs[q]) && Possible(w, w.procs[q].pc, reply)
    ensures
      var l := w.procs[q];
      var called := Called(w, q, l, reply);
      Turn(w, q, reply) == Continue(called, q, Advance(l, called.saved, reply))
  {
  }

  lemma ContinueFrame(w: World, q: Proc, l: Local)
    ensures Continue(w, q, l).log == w.log && Continue(w, q, l).procs == w.procs[q := l]
  {
  }

  /** What another process's turn leaves alone. */
  lemma OthersTurn(w: World, p: Proc, q: Proc, reply: Reply, n: nat)
    requires p in w.procs && q in w.procs && q != p && NoEntryBy(p, n, w)
    requires InSection(w.procs[q]) && Possible(w, w.procs[q].pc, reply)
    ensures
      var after := Turn(w, q, reply);
      p in after.procs && after.procs[p] == w.procs[p] && NoEntryBy(p, n, after)
  {
    var l := w.procs[q];
    TurnIs(w, q, reply);
    var called := Called(w, q, l, reply);
    ContinueFrame(called, q, Advance(l, called.saved, reply));
    LoggedOnlyBy(w, p, q, l, n);
    AffectFrame(Logged(w, q, l), l);
  }

  lemma HarmlessEnter(first: Op, l: Local)
    requires Harmless(first, l) && l.pc.AcquireLock?
    ensures Harmless(first, Enter(l))
  {
  }

  lemma HarmlessEnd(first: Op, l: Local, result: Result)
    requires Harmless(first, l) && l.pc.AcquireLock? && (result.Failed? || (result.Busy? && l.op.TryRestartIfRunning?))
    ensures Harmless(first, l.(pc := Done(result)))
  {
  }

  lemma AcquireOwn(w: World, p: Proc, reply: Reply, first: Op)
    requires p in w.procs && Harmless(first, w.procs[p]) && w.procs[p].pc.AcquireLock?
    ensures
      var after := TryAcquire(w, p, w.procs[p], reply);
      p in after.procs && Harmless(first, after.procs[p]) && Remaining(after.procs[p]) <= 5
  {
    var l, after := w.procs[p], TryAcquire(w, p, w.procs[p], reply);
    if reply.Err? {
      HarmlessEnd(first, l, Failed);
      assert after.procs[p] == l.(pc := Done(Failed));
    } else if w.holder.None? {
      HarmlessEnter(first, l);
      assert after.procs[p] == Enter(l);
    } else if l.op.TryRestartIfRunning? {
      HarmlessEnd(first, l, Busy);
      assert after.procs[p] == l.(pc := Done(Busy));
    }
  }

  lemma AcquireFrame(w: World, q: Proc, l: Local, reply: Reply)
    ensures
      var after := TryAcquire(w, q, l, reply);
      after.log == w.log && w.procs.Keys <= after.procs.Keys && forall p :: p in w.procs && p != q ==> after.procs[p] == w.procs[p]
  {
  }

  lemma AcquireTurn(w: World, p: Proc, q: Proc, reply: Reply, first: Op)
    requires p in w.procs && Harmless(first, w.procs[p]) && q in w.procs && w.procs[q].pc.AcquireLock?
    ensures
      var after := TryAcquire(w, q, w.procs[q], reply);
      && p in after.procs && Harmless(first, after.procs[p]) && after.log == w.log
      && Remaining(after.procs[p]) <= Remaining(w.procs[p])
  {
    AcquireFrame(w, q, w.procs[q], reply);
    if p == q {
      AcquireOwn(w, p, reply, first);
    }
  }

  lemma HarmlessSection(w: World, p: Proc, reply: Reply, first: Op)
    requires p in w.procs && Harmless(first, w.procs[p]) && Overshadowed(w)
    requires InSection(w.procs[p]) && Possible(w, w.procs[p].pc, reply)
    ensures
      var after := Turn(w, p, reply);
      && p in after.procs && Harmless(first, after.procs[p]) && after.log == w.log
      && Remaining(after.procs[p]) < Remaining(w.procs[p])
  {
    var l := w.procs[p];
    HarmlessAdvance(first, l, w.saved, reply);
    RemainingAdvance(first, l, w.saved, reply);
    TurnIs(w, p, reply);
    AffectFrame(w, l);
    assert Called(w, p, l, reply) == w;
    ContinueFrame(w, p, Advance(l, w.saved, reply));
  }

  lemma HarmlessTurn(w: World, p: Proc, q: Proc, reply: Reply, first: Op, n: nat)
    requires p in w.procs && Harmless(first, w.procs[p]) && Overshadowed(w) && NoEntryBy(p, n, w)
    ensures
      var after := Turn(w, q, reply);
      && p in after.procs && Harmless(first, after.procs[p]) && NoEntryBy(p, n, after)
      && Remaining(after.procs[p]) + (if Works(w, p, Step(q, reply)) then 1 else 0) <= Remaining(w.procs[p])
  {
    if q in w.procs {
      if w.procs[q].pc.AcquireLock? {
        AcquireTurn(w, p, q, reply, first);
      } else if InSection(w.procs[q]) && Possible(w, w.procs[q].pc, reply) {
        if q == p {
          HarmlessSection(w, p, reply, first);
        } else {
          OthersTurn(w, p, q, reply, n);
        }
      }
    }
  }

  lemma HarmlessNext(w: World, p: Proc, action: Action, first: Op, n: nat)
    requires p in w.procs && Harmless(first, w.procs[p]) && Overshadowed(w) && NoEntryBy(p, n, w)
    ensures
      var after := Next(w, action);
      && p in after.procs && Harmless(first, after.procs[p]) && NoEntryBy(p, n, after)
      && Remaining(after.procs[p]) + (if Works(w, p, action) then 1 else 0) <= Remaining(w.procs[p])
  {
    if action.Step? {
      HarmlessTurn(w, p, action.proc, action.reply, first, n);
    }
  }

  lemma {:induction false} HarmlessRun(w: World, p: Proc, actions: seq<Action>, first: Op, n: nat)
    requires p in w.procs && Harmless(first, w.procs[p]) && NoEntryBy(p, n, w)
    requires OvershadowedThroughout(w, actions)
    ensures
      var after := Run(w, actions);
      && p in after.procs && Harmless(first, after.procs[p]) && NoEntryBy(p, n, after)
      && Remaining(after.procs[p]) + CallsOf(w, p, actions) <= Remaining(w.procs[p])
    decreases actions
  {
    if actions != [] {
      HarmlessNext(w, p, actions[0], first, n);
      HarmlessRun(Next(w, actions[0]), p, actions[1..], first, n);
    }
  }

  /** While an unmanaged server is up, whatever the other processes do: an operation begun then never
      attempts a save, a stop or a start. It makes at most five calls, and once it has made five it is over;
      it ends in failure, except that `start` can succeed and the updater can find the lock taken. */
  lemma UnmanagedServerBlocks(w: World, p: Proc, op: Op, actions: seq<Action>)
    requires p !in w.procs && OvershadowedThroughout(w, [Spawn(p, op)] + actions)
    ensures
      var begun := Next(w, Spawn(p, op));
      var after := Run(begun, actions);
      && p in after.procs
      && |w.log| <= |after.log| && (forall i :: |w.log| <= i < |after.log| ==> after.log[i].proc != p)
      && CallsOf(begun, p, actions) <= 5
      && (CallsOf(begun, p, actions) == 5 ==> after.procs[p].pc.Done?)
      && (after.procs[p].pc.Done? ==>
            var result := after.procs[p].pc.result;
            result.Failed? || (result.Succeeded? && op.Start?) || (result.Busy? && op.TryRestartIfRunning?))
  {
    var all := [Spawn(p, op)] + actions;
    assert all[0] == Spawn(p, op) && all[1..] == actions;
    HarmlessRun(Next(w, Spawn(p, op)), p, actions, op, |w.log|);
  }

  // ---------------------------------------------------------------- a stale launch flag is reachable

  lemma {:induction false} RunAppend(w: World, one: seq<Action>, two: seq<Action>)
    ensures Run(w, one + two) == Run(Run(w, one), two)
    decreases one
  {
    if one == [] {
      assert one + two == two;
    } else {
      assert (one + two)[0] == one[0] && (one + two)[1..] == one[1..] + two;
      RunAppend(Next(w, one[0]), one[1..], two);
    }
  }

  lemma RunOne(w: World, action: Action)
    ensures Run(w, [action]) == Next(w, action)
  {
    assert [action][1..] == [];
    assert Run(Next(w, action), []) == Next(w, action);
  }

  lemma RunSnoc(w: World, actions: seq<Action>, action: Action)
    ensures Run(w, actions + [action]) == Next(Run(w, actions), action)
  {
    RunAppend(w, actions, [action]);
    RunOne(Run(w, actions), action);
  }

  function With(w: World, p: Proc, l: Local): World {
    w.(procs := w.procs[p := l])
  }

  /** From an idle lock, a new operation gets into its critical section. */
  lemma Begin(w: World, p: Proc, op: Op) returns (actions: seq<Action>)
    requires w.holder.None? && p !in w.procs
    ensures Run(w, actions) == With(w.(holder := Some(p)), p, Enter(Fresh(op)))
  {
    RunOne(w, Spawn(p, op));
    RunSnoc(w, [Spawn(p, op)], Step(p, Ok));
    actions := [Spawn(p, op)] + [Step(p, Ok)];
    assert w.procs[p := Fresh(op)][p := Enter(Fresh(op))] == w.procs[p := Enter(Fresh(op))];
  }

  /** One more call by `p`. */
  lemma Proceed(w0: World, actions: seq<Action>, w: World, p: Proc, l: Local, reply: Reply)
    returns (more: seq<Action>)
    requires Run(w0, actions) == With(w, p, l) && w.holder == Some(p) && InSection(l) && Possible(w, l.pc, reply)
    ensures
      var called := Called(With(w, p, l), p, l, reply);
      Run(w0, more) == Continue(called, p, Advance(l, called.saved, reply))
  {
    RunSnoc(w0, actions, Step(p, reply));
    more := actions + [Step(p, reply)];
  }

  lemma ProceedQuietly(w0: World, actions: seq<Action>, w: World, p: Proc, l: Local, reply: Reply)
    returns (more: seq<Action>)
    requires Run(w0, actions) == With(w, p, l) && w.holder == Some(p) && InSection(l) && Possible(w, l.pc, reply)
    requires EffectOf(l.pc).None? && !Advance(l, w.saved, reply).pc.Done?
    ensures Run(w0, more) == With(w, p, Advance(l, w.saved, reply))
  {
    more := Proceed(w0, actions, w, p, l, reply);
    var next := Advance(l, w.saved, reply);
    assert w.procs[p := l][p := next] == w.procs[p := next];
    AffectFrame(With(w, p, l), l);
  }

  /** Left alone, `start` launches a backend with the saved setting. */
  lemma StartLaunches(w: World, p: Proc) returns (actions: seq<Action>)
    requires w.holder.None? && w.managed.None? && !w.unmanaged && p !in w.procs
    ensures
      var after := Run(w, actions);
      && after.holder.None? && after.managed == Some(w.saved) && after.saved == w.saved && after.procs.Keys == w.procs.Keys + {p}
      && after.procs[p].pc == Done(Succeeded)
  {
    actions := Begin(w, p, Start);
    var held := w.(holder := Some(p));
    var l0 := Enter(Fresh(Start));
    actions := ProceedQuietly(w, actions, held, p, l0, Ok);
    var l1 := l0.(pc := ProbeSocket, settings := w.saved);
    actions := ProceedQuietly(w, actions, held, p, l1, No);
    var l2 := l1.(pc := CheckBackend);
    assert Advance(l1, w.saved, No) == l2;
    actions := ProceedQuietly(w, actions, held, p, l2, No);
    var l3 := l2.(pc := EnsureBinary, clear := true);
    assert Advance(l2, w.saved, No) == l3;
    actions := ProceedQuietly(w, actions, held, p, l3, Ok);
    actions := LaunchEnds(w, actions, held, p, l3.(pc := LaunchBackend));
  }

  /** Left alone, `restart` replaces the running backend by one with the saved setting, whatever the old one
      was launched with. */
  lemma RestartRelaunches(w: World, p: Proc) returns (actions: seq<Action>)
    requires w.holder.None? && w.managed.Some? && p !in w.procs
    ensures
      var after := Run(w, actions);
      && after.holder.None? && after.managed == Some(w.saved) && after.saved == w.saved && after.procs.Keys == w.procs.Keys + {p}
      && after.procs[p].pc == Done(Succeeded)
  {
    actions := Begin(w, p, Restart);
    var held := w.(holder := Some(p));
    var l0 := Enter(Fresh(Restart));
    actions := ProceedQuietly(w, actions, held, p, l0, Ok);
    var l1 := l0.(pc := ProbeSocket, settings := w.saved);
    actions := ProceedQuietly(w, actions, held, p, l1, Yes);
    var l2 := l1.(pc := CheckBackend, answered := true);
    assert Advance(l1, w.saved, Yes) == l2;
    var stopped;
    actions := RestartRechecks(w, actions, held, p, l2);
    actions, stopped := ProceedToStop(w, actions, held, p, l2.(pc := StopBackend, found := true, clear := false));
    actions := LaunchEnds(w, actions, stopped, p, l2.(pc := LaunchBackend, found := true, clear := true));
  }

  lemma RestartGoesOn(l: Local, file: bool)
    requires l.op.Restart?
    ensures l.pc.CheckBackend? ==> Advance(l, file, Yes) == l.(pc := EnsureBinary, found := true, clear := false)
    ensures l.pc.EnsureBinary? ==> Advance(l, file, Ok) == l.(pc := RecheckBackend)
    ensures l.pc.RecheckBackend? ==> Advance(l, file, Yes) == l.(pc := StopBackend, clear := false)
  {
  }

  lemma RestartRechecks(w0: World, actions: seq<Action>, w: World, p: Proc, l: Local) returns (more: seq<Action>)
    requires Run(w0, actions) == With(w, p, l) && w.holder == Some(p) && w.managed.Some? && l.pc.CheckBackend? && l.op.Restart?
    ensures Run(w0, more) == With(w, p, l.(pc := StopBackend, found := true, clear := false))
  {
    var found := l.(pc := EnsureBinary, found := true, clear := false);
    RestartGoesOn(l, w.saved);
    more := ProceedQuietly(w0, actions, w, p, l, Yes);
    more := RestartReplaces(w0, more, w, p, found);
  }

  lemma RestartReplaces(w0: World, actions: seq<Action>, w: World, p: Proc, l: Local) returns (more: seq<Action>)
    requires Run(w0, actions) == With(w, p, l) && w.holder == Some(p) && w.managed.Some? && l.pc.EnsureBinary? && l.op.Restart?
    ensures Run(w0, more) == With(w, p, l.(pc := StopBackend, clear := false))
  {
    RestartGoesOn(l, w.saved);
    more := ProceedQuietly(w0, actions, w, p, l, Ok);
    RestartGoesOn(l.(pc := RecheckBackend), w.saved);
    more := ProceedQuietly(w0, more, w, p, l.(pc := RecheckBackend), Yes);
  }

  lemma ProceedToStop(w0: World, actions: seq<Action>, w: World, p: Proc, l: Local) returns (more: seq<Action>, stopped: World)
    requires Run(w0, actions) == With(w, p, l) && w.holder == Some(p) && l.pc.StopBackend? && l.op.Restart?
    ensures Run(w0, more) == With(stopped, p, l.(pc := LaunchBackend, clear := true))
    ensures stopped.holder == Some(p) && stopped.managed.None? && stopped.saved == w.saved && stopped.procs.Keys == w.procs.Keys + {p}
  {
    more := Proceed(w0, actions, w, p, l, Ok);
    stopped := Called(With(w, p, l), p, l, Ok);
    CalledChange(With(w, p, l), p, l, Ok);
    AffectFrame(Logged(With(w, p, l), p, l), l);
    assert Advance(l, stopped.saved, Ok) == l.(pc := LaunchBackend, clear := true);
  }

  lemma LaunchEnds(w0: World, actions: seq<Action>, w: World, p: Proc, l: Local) returns (more: seq<Action>)
    requires Run(w0, actions) == With(w, p, l) && w.holder == Some(p) && l.pc.LaunchBackend?
    requires l.op.Start? || l.op.Restart?
    requires w.managed.None? && l.settings == w.saved && !l.thenStart
    ensures
      var after := Run(w0, more);
      && after.holder.None? && after.managed == Some(w.saved) && after.saved == w.saved && after.procs.Keys == w.procs.Keys + {p}
      && after.procs[p].pc == Done(Succeeded)
  {
    more := Proceed(w0, actions, w, p, l, Ok);
    var called := Called(With(w, p, l), p, l, Ok);
    var ready := l.(pc := AwaitReady, clear := false, dirty := false);
    assert Advance(l, called.saved, Ok) == ready;
    more := Proceed(w0, more, called, p, ready, Ok);
    assert Advance(ready, called.saved, Ok) == ready.(pc := Done(Succeeded));
  }

  /** A `set` on a running backend whose binary check fails after the save leaves the flag stale: the
      exception in `LaunchFlagAgrees` does occur. */
  lemma FailedSetIsStale(w: World, p: Proc) returns (actions: seq<Action>)
    requires w.holder.None? && w.managed == Some(w.saved) && p !in w.procs
    ensures
      var after := Run(w, actions);
      after.holder.None? && after.stale && after.managed == Some(!after.saved)
  {
    var op := SetRemoteControl(!w.saved);
    actions := Begin(w, p, op);
    var held := w.(holder := Some(p));
    var l0 := Enter(Fresh(op));
    actions := ProceedQuietly(w, actions, held, p, l0, Ok);
    var l1 := l0.(pc := CheckBackend, settings := w.saved);
    actions := ProceedQuietly(w, actions, held, p, l1, Yes);
    var l2 := l1.(pc := SaveSettings, found := true);
    assert Advance(l1, w.saved, Yes) == l2;
    actions := Proceed(w, actions, held, p, l2, Ok);
    var l3 := l2.(pc := EnsureBinary, settings := !w.saved, saved := true, dirty := true);
    var called := Called(With(held, p, l2), p, l2, Ok);
    assert called.saved == !w.saved && called.managed == w.managed && called.holder == Some(p);
    assert Advance(l2, called.saved, Ok) == l3;
    actions := Proceed(w, actions, called, p, l3, Err);
    assert Advance(l3, called.saved, Err) == Fail(l3);
  }
}
