/**
  Managed self-updates: updaters and cleaners that share an installation directory under a lock.

  Every file system call is one step, so that processes interleave and crash between any two of them. Removing
  a tree and installing into one take several steps each.
 */
module ManagedUpdate {
  import opened Wrappers

  type Version = string

  /** What running the program of a tree with `--version` gives. */
  datatype SmokeTest = Broken | Prints(text: Version)

  datatype Tree = Tree(files: string, program: SmokeTest)

  /** The entries of the staging directory; only the updaters' own are swept. */
  datatype Entry = Update(suffix: nat) | Foreign(name: string)

  datatype Job = Updating(version: Version) | Cleaning

  datatype Phase =
    | Locking
    | Listing
    | Sweeping(entries: seq<Entry>)
    | LookingUp
    | VerifyingRelease
    | Staging
    | Filling(stage: Entry)
    | VerifyingStage(stage: Entry)
    | Promoting(stage: Entry)
    | NamingTemporary(made: Option<Entry>)
    | WritingTemporary(made: Option<Entry>, temporary: nat)
    | Activating(made: Option<Entry>, temporary: nat)
    | RemovingTemporary(made: Option<Entry>, temporary: nat, ok: bool)
    | RemovingStage(made: Option<Entry>, ok: bool)
    | Unlocking(ok: bool)
    | Stuck                                       // the stage could not be removed: the lock is kept until exit
    | Finished(ok: bool)

  datatype Process = Process(job: Job, phase: Phase)

  /** `current` is what the file current-version holds; a temporary file may be only partly written. */
  datatype System = System(
    current: Option<Version>,
    releases: map<Version, Tree>,
    staging: map<Entry, Tree>,
    temporaries: map<nat, Option<Version>>,
    lock: Option<nat>,
    processes: map<nat, Process>)                 // the live ones

  datatype Choice =
    | Fails
    | Goes
    | Writes(tree: Tree)                          // a step within an installation, a removal or a write
    | Lists(entries: seq<Entry>)
    | Makes(suffix: nat)
    | Names(temporary: nat)

  datatype Action =
    | Start(pid: nat, job: Job)
    | Go(pid: nat, choice: Choice)
    | Crash(pid: nat)

  // ---- The code ----------------------------------------------------------------------

  /** The smoke test of a release: its program runs and prints the version expected of it. */
  predicate Passes(tree: Tree, version: Version) {
    tree.program == Prints(version)
  }

  function Target(job: Job): Version {
    if job.Updating? then job.version else ""
  }

  function Enter(s: System, pid: nat, phase: Phase): (r: System)
    requires pid in s.processes
    ensures r == s.(processes := r.processes)
  {
    s.(processes := s.processes[pid := s.processes[pid].(phase := phase)])
  }

  /** A step of one process changes the phase of no other. */
  ghost predicate OnlyMoves(s: System, r: System, pid: nat)
    requires pid in s.processes
  {
    pid in r.processes && r.processes == s.processes[pid := s.processes[pid].(phase := r.processes[pid].phase)]
  }

  /** The lock is taken and given back together with the right to work. */
  ghost predicate LockFollows(s: System, r: System, pid: nat)
    requires pid in s.processes && pid in r.processes
  {
    var before, after := Holding(s.processes[pid].phase), Holding(r.processes[pid].phase);
    if before == after then r.lock == s.lock else if after then Free(s) && r.lock == Some(pid) else r.lock == None
  }

  function Without<K, V>(m: map<K, V>, key: K): map<K, V> {
    map k | k in m && k != key :: m[k]
  }

  function Remove(s: System, entry: Entry): System {
    s.(staging := Without(s.staging, entry))
  }

  /** The lock is free if nobody holds it or its holder is dead. */
  predicate Free(s: System) {
    s.lock == None || s.lock.value !in s.processes
  }

  /** Where a process goes after the sweep. */
  function AfterSweep(job: Job): Phase {
    if job.Cleaning? then Unlocking(true) else LookingUp
  }

  /** Failures of the sweep are swallowed; an entry is removed in one or several steps. */
  function GoSweeping(s: System, pid: nat, entries: seq<Entry>, choice: Choice): (r: System)
    requires pid in s.processes
    ensures OnlyMoves(s, r, pid)
    ensures r.lock == s.lock && (Holding(s.processes[pid].phase) ==> Holding(r.processes[pid].phase))
    ensures r.processes[pid].phase == Stuck ==> r.processes[pid].phase == s.processes[pid].phase
  {
    var job := s.processes[pid].job;
    if entries == [] then Enter(s, pid, AfterSweep(job))
    else if entries[0].Foreign? then Enter(s, pid, Sweeping(entries[1..]))
    else if choice.Fails? then Enter(s, pid, AfterSweep(job))
    else if choice.Writes? && entries[0] in s.staging then s.(staging := s.staging[entries[0] := choice.tree])
    else Enter(Remove(s, entries[0]), pid, Sweeping(entries[1..]))
  }

  /** `mkdtemp` makes a directory that was not there. */
  function GoStaging(s: System, pid: nat, choice: Choice): (r: System)
    requires pid in s.processes
    ensures OnlyMoves(s, r, pid)
    ensures r.lock == s.lock && (Holding(s.processes[pid].phase) ==> Holding(r.processes[pid].phase))
    ensures r.processes[pid].phase == Stuck ==> r.processes[pid].phase == s.processes[pid].phase
  {
    if !choice.Makes? || Update(choice.suffix) in s.staging then Enter(s, pid, RemovingStage(None, false))
    else Enter(s.(staging := s.staging[Update(choice.suffix) := Tree("", Broken)]), pid, Filling(Update(choice.suffix)))
  }

  /** Download and installation: any number of writes. */
  function GoFilling(s: System, pid: nat, stage: Entry, choice: Choice): (r: System)
    requires pid in s.processes
    ensures OnlyMoves(s, r, pid)
    ensures r.lock == s.lock && (Holding(s.processes[pid].phase) ==> Holding(r.processes[pid].phase))
    ensures r.processes[pid].phase == Stuck ==> r.processes[pid].phase == s.processes[pid].phase
  {
    if choice.Fails? || stage !in s.staging then Enter(s, pid, RemovingStage(Some(stage), false))
    else if choice.Writes? then s.(staging := s.staging[stage := choice.tree])
    else Enter(s, pid, VerifyingStage(stage))
  }

  /** Renaming onto a release that is there fails. */
  function GoPromoting(s: System, pid: nat, stage: Entry, choice: Choice): (r: System)
    requires pid in s.processes
    ensures OnlyMoves(s, r, pid)
    ensures r.lock == s.lock && (Holding(s.processes[pid].phase) ==> Holding(r.processes[pid].phase))
    ensures r.processes[pid].phase == Stuck ==> r.processes[pid].phase == s.processes[pid].phase
  {
    var version := Target(s.processes[pid].job);
    if choice.Fails? || stage !in s.staging || version in s.releases
        then Enter(s, pid, RemovingStage(Some(stage), false))
    else Enter(Remove(s.(releases := s.releases[version := s.staging[stage]]), stage), pid,
        NamingTemporary(Some(stage)))
  }

  function GoWritingTemporary(s: System, pid: nat, made: Option<Entry>, t: nat, choice: Choice): (r: System)
    requires pid in s.processes
    ensures OnlyMoves(s, r, pid)
    ensures r.lock == s.lock && (Holding(s.processes[pid].phase) ==> Holding(r.processes[pid].phase))
    ensures r.processes[pid].phase == Stuck ==> r.processes[pid].phase == s.processes[pid].phase
  {
    if choice.Fails? then Enter(s, pid, RemovingTemporary(made, t, false))
    else if choice.Writes? then s.(temporaries := s.temporaries[t := None])
    else Enter(s.(temporaries := s.temporaries[t := Some(Target(s.processes[pid].job))]), pid, Activating(made, t))
  }

  /** The rename that makes a release the current one. */
  function GoActivating(s: System, pid: nat, made: Option<Entry>, t: nat, choice: Choice): (r: System)
    requires pid in s.processes
    ensures OnlyMoves(s, r, pid)
    ensures r.lock == s.lock && (Holding(s.processes[pid].phase) ==> Holding(r.processes[pid].phase))
    ensures r.processes[pid].phase == Stuck ==> r.processes[pid].phase == s.processes[pid].phase
  {
    if choice.Fails? || t !in s.temporaries then Enter(s, pid, RemovingTemporary(made, t, false))
    else Enter(s.(current := s.temporaries[t], temporaries := Without(s.temporaries, t)), pid,
        RemovingTemporary(made, t, true))
  }

  function GoRemovingStage(s: System, pid: nat, made: Option<Entry>, ok: bool, choice: Choice): (r: System)
    requires pid in s.processes
    ensures OnlyMoves(s, r, pid)
    ensures r.lock == s.lock && (Holding(s.processes[pid].phase) ==> Holding(r.processes[pid].phase))
    ensures s.processes[pid].phase != Stuck ==> (r.processes[pid].phase == Stuck <==> made.Some? && choice.Fails?)
  {
    if made == None then Enter(s, pid, Unlocking(ok))
    else if choice.Fails? then Enter(s, pid, Stuck)
    else if choice.Writes? && made.value in s.staging then s.(staging := s.staging[made.value := choice.tree])
    else Enter(Remove(s, made.value), pid, Unlocking(ok))
  }

  /** The steps that leave the releases, the staging directory and the current version alone. */
  function Proceed(s: System, pid: nat, choice: Choice): (r: System)
    requires pid in s.processes
    ensures OnlyMoves(s, r, pid)
    ensures LockFollows(s, r, pid)
    ensures r.processes[pid].phase == Stuck <==> s.processes[pid].phase == Stuck
  {
    var Process(job, phase) := s.processes[pid];
    var version := Target(job);
    match phase
    case Locking =>
      if choice.Fails? || !Free(s) then Enter(s, pid, Finished(false)) else Enter(s.(lock := Some(pid)), pid, Listing)
    case Listing =>
      if choice.Lists? && (set e | e in choice.entries) == s.staging.Keys then Enter(s, pid, Sweeping(choice.entries))
      else Enter(s, pid, AfterSweep(job))
    case LookingUp =>
      if choice.Fails? then Enter(s, pid, RemovingStage(None, false))
      else Enter(s, pid, if version in s.releases then VerifyingRelease else Staging)
    case VerifyingRelease =>
      if !choice.Fails? && version in s.releases && Passes(s.releases[version], version)
          then Enter(s, pid, NamingTemporary(None))
      else Enter(s, pid, RemovingStage(None, false))
    case VerifyingStage(stage) =>
      if !choice.Fails? && stage in s.staging && Passes(s.staging[stage], version) then Enter(s, pid, Promoting(stage))
      else Enter(s, pid, RemovingStage(Some(stage), false))
    case NamingTemporary(made) => Enter(s, pid, WritingTemporary(made, if choice.Names? then choice.temporary else 0))
    case RemovingTemporary(made, t, ok) =>
      if choice.Fails? then Enter(s, pid, RemovingStage(made, false))
      else Enter(s.(temporaries := Without(s.temporaries, t)), pid, RemovingStage(made, ok))
    case Unlocking(ok) => Enter(s.(lock := None), pid, Finished(ok))
    case _ => s
  }

  function Advance(s: System, pid: nat, choice: Choice): System
    requires pid in s.processes
  {
    match s.processes[pid].phase
    case Sweeping(entries) => GoSweeping(s, pid, entries, choice)
    case Staging => GoStaging(s, pid, choice)
    case Filling(stage) => GoFilling(s, pid, stage, choice)
    case Promoting(stage) => GoPromoting(s, pid, stage, choice)
    case WritingTemporary(made, t) => GoWritingTemporary(s, pid, made, t, choice)
    case Activating(made, t) => GoActivating(s, pid, made, t, choice)
    case RemovingStage(made, ok) => GoRemovingStage(s, pid, made, ok, choice)
    case _ => Proceed(s, pid, choice)
  }

  function Step(s: System, action: Action): System {
    match action
    case Start(pid, job) => if pid in s.processes || s.lock == Some(pid) then s
        else s.(processes := s.processes[pid := Process(job, Locking)])
    case Go(pid, choice) => if pid in s.processes then Advance(s, pid, choice) else s
    case Crash(pid) => s.(processes := Without(s.processes, pid))
  }

  function Run(s: System, actions: seq<Action>): System
    decreases |actions|
  {
    if actions == [] then s else Run(Step(s, actions[0]), actions[1..])
  }

  // ---- What every step keeps ---------------------------------------------------------

  predicate Holding(phase: Phase) {
    !phase.Locking? && !phase.Finished?
  }

  /** The staging directory that a live updater is working in. */
  function InUse(phase: Phase): Option<Entry> {
    if phase.Filling? || phase.VerifyingStage? || phase.Promoting? then Some(phase.stage) else None
  }

  ghost predicate Verified(s: System, version: Version) {
    version in s.releases && Passes(s.releases[version], version)
  }

  /** What a process relies on while it holds the lock. */
  ghost predicate PhaseInv(s: System, p: Process) {
    var version := Target(p.job);
    && (p.job.Cleaning? ==>
          p.phase.Locking? || p.phase.Listing? || p.phase.Sweeping? || p.phase.Unlocking? || p.phase.Finished?)
    && match p.phase
       case Sweeping(entries) => forall e :: e in s.staging && e.Update? ==> e in entries
       case Staging => version !in s.releases
       case Filling(stage) => stage in s.staging && stage.Update? && version !in s.releases
       case VerifyingStage(stage) => stage in s.staging && stage.Update? && version !in s.releases
       case Promoting(stage) =>
         stage in s.staging && stage.Update? && version !in s.releases && Passes(s.staging[stage], version)
       case NamingTemporary(made) => MadeHere(made) && Verified(s, version)
       case WritingTemporary(made, _) => MadeHere(made) && Verified(s, version)
       case Activating(made, t) => MadeHere(made) && Verified(s, version) && t in s.temporaries
           && s.temporaries[t] == Some(version)
       case RemovingTemporary(made, _, ok) => MadeHere(made) && (ok ==> s.current == Some(version))
       case RemovingStage(made, ok) => MadeHere(made) && (ok ==> s.current == Some(version))
       case Unlocking(ok) => p.job.Updating? && ok ==> s.current == Some(version)
       case _ => true
  }

  predicate MadeHere(made: Option<Entry>) {
    made.Some? ==> made.value.Update?
  }

  ghost predicate CurrentInv(s: System) {
    s.current.Some? ==> Verified(s, s.current.value)
  }

  ghost predicate Inv(s: System) {
    && CurrentInv(s)
    && (forall pid :: pid in s.processes && Holding(s.processes[pid].phase) ==> s.lock == Some(pid))
    && (forall pid :: pid in s.processes && Holding(s.processes[pid].phase) ==> PhaseInv(s, s.processes[pid]))
  }

  /** What the step of a process that holds the lock has to establish. */
  lemma HolderStep(s: System, pid: nat, r: System)
    requires Inv(s) && pid in s.processes && Holding(s.processes[pid].phase)
    requires CurrentInv(r) && pid in r.processes && r.processes == s.processes[pid := r.processes[pid]]
    requires Holding(r.processes[pid].phase) ==> r.lock == s.lock && PhaseInv(r, r.processes[pid])
    ensures Inv(r)
  {
    hide PhaseInv, CurrentInv;
  }

  lemma SweepKeepsInv(s: System, pid: nat, entries: seq<Entry>, choice: Choice)
    requires Inv(s) && pid in s.processes && s.processes[pid].phase == Sweeping(entries)
    ensures Inv(GoSweeping(s, pid, entries, choice))
  {
    hide Passes;
    HolderPhase(s, pid);
    var job := s.processes[pid].job;
    if entries == [] {
      MoveKeepsInv(s, pid, AfterSweep(job));
    } else {
      assert forall e :: e in entries ==> e == entries[0] || e in entries[1..];
      if entries[0].Foreign? {
        MoveKeepsInv(s, pid, Sweeping(entries[1..]));
      } else if choice.Fails? {
        MoveKeepsInv(s, pid, AfterSweep(job));
      } else {
        HolderStep(s, pid, GoSweeping(s, pid, entries, choice));
      }
    }
  }

  lemma PromotionKeepsInv(s: System, pid: nat, stage: Entry, choice: Choice)
    requires Inv(s) && pid in s.processes && s.processes[pid].phase == Promoting(stage)
    ensures Inv(GoPromoting(s, pid, stage, choice))
  {
    HolderStep(s, pid, GoPromoting(s, pid, stage, choice));
  }

  lemma StagingKeepsInv(s: System, pid: nat, choice: Choice)
    requires Inv(s) && pid in s.processes && s.processes[pid].phase.Staging?
    ensures Inv(GoStaging(s, pid, choice))
  {
    HolderStep(s, pid, GoStaging(s, pid, choice));
  }

  lemma FillingKeepsInv(s: System, pid: nat, stage: Entry, choice: Choice)
    requires Inv(s) && pid in s.processes && s.processes[pid].phase == Filling(stage)
    ensures Inv(GoFilling(s, pid, stage, choice))
  {
    HolderStep(s, pid, GoFilling(s, pid, stage, choice));
  }

  lemma RemovalKeepsInv(s: System, pid: nat, made: Option<Entry>, ok: bool, choice: Choice)
    requires Inv(s) && pid in s.processes && s.processes[pid].phase == RemovingStage(made, ok)
    ensures Inv(GoRemovingStage(s, pid, made, ok, choice))
  {
    hide Without;
    HolderStep(s, pid, GoRemovingStage(s, pid, made, ok, choice));
  }

  lemma WritingKeepsInv(s: System, pid: nat, made: Option<Entry>, t: nat, choice: Choice)
    requires Inv(s) && pid in s.processes && s.processes[pid].phase == WritingTemporary(made, t)
    ensures Inv(GoWritingTemporary(s, pid, made, t, choice))
  {
    HolderStep(s, pid, GoWritingTemporary(s, pid, made, t, choice));
  }

  lemma ActivationKeepsInv(s: System, pid: nat, made: Option<Entry>, t: nat, choice: Choice)
    requires Inv(s) && pid in s.processes && s.processes[pid].phase == Activating(made, t)
    ensures Inv(GoActivating(s, pid, made, t, choice))
  {
    hide Without;
    HolderStep(s, pid, GoActivating(s, pid, made, t, choice));
  }

  lemma LockingKeepsInv(s: System, pid: nat, choice: Choice)
    requires Inv(s) && pid in s.processes && s.processes[pid].phase.Locking?
    ensures Inv(Proceed(s, pid, choice))
  {
    var r := Proceed(s, pid, choice);
    forall q | q in r.processes && Holding(r.processes[q].phase)
      ensures r.lock == Some(q) && PhaseInv(r, r.processes[q])
    {
      assert q != pid ==> s.processes[q] == r.processes[q] && s.lock == Some(q);
    }
  }

  /** A step that only moves the process on: its new phase is all there is to establish. */
  lemma MoveKeepsInv(s: System, pid: nat, phase: Phase)
    requires Inv(s) && pid in s.processes && Holding(s.processes[pid].phase)
    requires Holding(phase) && PhaseInv(s, Process(s.processes[pid].job, phase))
    ensures Inv(Enter(s, pid, phase))
  {
    hide Passes;
    HolderStep(s, pid, Enter(s, pid, phase));
  }

  lemma LookingUpKeepsInv(s: System, pid: nat, choice: Choice)
    requires Inv(s) && pid in s.processes && s.processes[pid].phase.LookingUp?
    ensures Inv(Proceed(s, pid, choice))
  {
    hide Inv, Enter, Without, Passes, Free;
    HolderPhase(s, pid);
    var version := Target(s.processes[pid].job);
    MoveKeepsInv(s, pid, RemovingStage(None, false));
    if version in s.releases {
      MoveKeepsInv(s, pid, VerifyingRelease);
    } else {
      MoveKeepsInv(s, pid, Staging);
    }
  }

  lemma VerifyingReleaseKeepsInv(s: System, pid: nat, choice: Choice)
    requires Inv(s) && pid in s.processes && s.processes[pid].phase.VerifyingRelease?
    ensures Inv(Proceed(s, pid, choice))
  {
    hide Inv, Enter, Without, Passes, Free;
    HolderPhase(s, pid);
    var version := Target(s.processes[pid].job);
    MoveKeepsInv(s, pid, RemovingStage(None, false));
    if version in s.releases && Passes(s.releases[version], version) {
      MoveKeepsInv(s, pid, NamingTemporary(None));
    }
  }

  lemma VerifyingStageKeepsInv(s: System, pid: nat, stage: Entry, choice: Choice)
    requires Inv(s) && pid in s.processes && s.processes[pid].phase == VerifyingStage(stage)
    ensures Inv(Proceed(s, pid, choice))
  {
    hide Inv, Enter, Without, Passes, Free;
    HolderPhase(s, pid);
    MoveKeepsInv(s, pid, RemovingStage(Some(stage), false));
    if stage in s.staging && Passes(s.staging[stage], Target(s.processes[pid].job)) {
      MoveKeepsInv(s, pid, Promoting(stage));
    }
  }

  lemma HolderPhase(s: System, pid: nat)
    requires Inv(s) && pid in s.processes && Holding(s.processes[pid].phase)
    ensures PhaseInv(s, s.processes[pid])
  {
    hide PhaseInv;
  }

  lemma OtherwiseKeepsInv(s: System, pid: nat, choice: Choice)
    requires Inv(s) && pid in s.processes
    requires var phase := s.processes[pid].phase;
             phase.Listing? || phase.NamingTemporary? || phase.RemovingTemporary? || phase.Unlocking?
    ensures Inv(Proceed(s, pid, choice))
  {
    hide Without;
    HolderStep(s, pid, Proceed(s, pid, choice));
  }

  lemma AdvanceKeepsInv(s: System, pid: nat, choice: Choice)
    requires Inv(s) && pid in s.processes
    ensures Inv(Advance(s, pid, choice))
  {
    hide Inv, Enter, GoSweeping, GoStaging, GoFilling, GoPromoting, GoWritingTemporary, GoActivating, GoRemovingStage;
    match s.processes[pid].phase
    case Sweeping(entries) => SweepKeepsInv(s, pid, entries, choice);
    case Staging => StagingKeepsInv(s, pid, choice);
    case Filling(stage) => FillingKeepsInv(s, pid, stage, choice);
    case Promoting(stage) => PromotionKeepsInv(s, pid, stage, choice);
    case WritingTemporary(made, t) => WritingKeepsInv(s, pid, made, t, choice);
    case Activating(made, t) => ActivationKeepsInv(s, pid, made, t, choice);
    case RemovingStage(made, ok) => RemovalKeepsInv(s, pid, made, ok, choice);
    case Locking => LockingKeepsInv(s, pid, choice);
    case LookingUp => LookingUpKeepsInv(s, pid, choice);
    case VerifyingRelease => VerifyingReleaseKeepsInv(s, pid, choice);
    case VerifyingStage(stage) => VerifyingStageKeepsInv(s, pid, stage, choice);
    case Listing => OtherwiseKeepsInv(s, pid, choice);
    case NamingTemporary(_) => OtherwiseKeepsInv(s, pid, choice);
    case RemovingTemporary(_, _, _) => OtherwiseKeepsInv(s, pid, choice);
    case Unlocking(_) => OtherwiseKeepsInv(s, pid, choice);
    case Stuck =>
    case Finished(_) =>
  }

  lemma StepKeepsInv(s: System, action: Action)
    requires Inv(s)
    ensures Inv(Step(s, action))
  {
    if action.Go? && action.pid in s.processes {
      AdvanceKeepsInv(s, action.pid, action.choice);
    }
  }

  lemma {:induction false} RunKeepsInv(s: System, actions: seq<Action>)
    requires Inv(s)
    ensures Inv(Run(s, actions))
    decreases |actions|
  {
    hide Step, Inv;
    if actions != [] {
      StepKeepsInv(s, actions[0]);
      RunKeepsInv(Step(s, actions[0]), actions[1..]);
    }
  }

  /** Any disk whose current version is in order, whatever dead processes left on it. */
  ghost predicate Sane(s: System) {
    CurrentInv(s) && s.processes == map[]
  }

  /** After every run with any crashes, current-version names a release whose tree passes verification. */
  lemma CurrentIsVerified(s: System, actions: seq<Action>)
    requires Sane(s)
    ensures var r := Run(s, actions); r.current.Some? ==> Verified(r, r.current.value)
  {
    hide Run;
    RunKeepsInv(s, actions);
  }

  /** In every run at most one live process is between taking and giving back the lock. */
  lemma MutualExclusion(s: System, actions: seq<Action>, p: nat, q: nat)
    requires Sane(s)
    ensures var r := Run(s, actions);
            p in r.processes && q in r.processes ==>
              Holding(r.processes[p].phase) && Holding(r.processes[q].phase) ==> p == q
  {
    hide Run;
    RunKeepsInv(s, actions);
  }

  /**
    Whatever another process does, or if it crashes, a live updater keeps its phase and the content of
    the staging directory that it works in.
   */
  lemma OthersKeepTheirStage(s: System, actions: seq<Action>, action: Action, owner: nat)
    requires Sane(s)
    ensures var r := Run(s, actions);
            owner in r.processes && InUse(r.processes[owner].phase).Some? && action.pid != owner ==>
              var next := Step(r, action);
              var stage := InUse(r.processes[owner].phase).value;
              && owner in next.processes && next.processes[owner] == r.processes[owner]
              && stage in r.staging && stage in next.staging && next.staging[stage] == r.staging[stage]
  {
    hide Run;
    RunKeepsInv(s, actions);
    var r := Run(s, actions);
    if owner in r.processes && InUse(r.processes[owner].phase).Some? && action.pid != owner {
      assert Holding(r.processes[owner].phase);
      assert PhaseInv(r, r.processes[owner]);
      if action.pid in r.processes {
        assert !Holding(r.processes[action.pid].phase);
      }
    }
  }

  /** When an updater is about to give back the lock with success, its version is the current one. */
  lemma SuccessMeansCurrent(s: System, actions: seq<Action>, pid: nat, choice: Choice)
    requires Sane(s)
    ensures var r := Run(s, actions);
            pid in r.processes && r.processes[pid].job.Updating? && r.processes[pid].phase == Unlocking(true) ==>
              Step(r, Go(pid, choice)).current == Some(r.processes[pid].job.version)
  {
    hide Run;
    RunKeepsInv(s, actions);
    var r := Run(s, actions);
    if pid in r.processes && r.processes[pid].phase == Unlocking(true) {
      assert Holding(r.processes[pid].phase) && PhaseInv(r, r.processes[pid]);
    }
  }

  // ---- A stage that cannot be removed ------------------------------------------------

  predicate NoCrash(actions: seq<Action>, pid: nat) {
    forall i :: 0 <= i < |actions| ==> actions[i] != Crash(pid)
  }

  ghost predicate IsStuck(s: System, pid: nat) {
    pid in s.processes && s.processes[pid].phase == Stuck
  }

  ghost predicate SameDisk(s: System, r: System) {
    r.current == s.current && r.releases == s.releases && r.staging == s.staging && r.temporaries == s.temporaries
  }

  /** Next to a stuck process, every other one is waiting for the lock or finished, and can only give up. */
  lemma StuckStep(s: System, action: Action, pid: nat)
    requires Inv(s) && IsStuck(s, pid) && action != Crash(pid)
    ensures var r := Step(s, action); IsStuck(r, pid) && r.lock == s.lock == Some(pid) && SameDisk(s, r)
  {
    assert Holding(s.processes[pid].phase);
    if action.Go? && action.pid in s.processes && action.pid != pid {
      assert !Holding(s.processes[action.pid].phase);
    }
  }

  lemma {:induction false} StuckRun(s: System, actions: seq<Action>, pid: nat)
    requires Inv(s) && IsStuck(s, pid) && NoCrash(actions, pid)
    ensures var r := Run(s, actions); Inv(r) && IsStuck(r, pid) && r.lock == Some(pid) && SameDisk(s, r)
    decreases |actions|
  {
    hide Step, Inv;
    if actions == [] {
      StuckHolds(s, pid);
    } else {
      StuckStep(s, actions[0], pid);
      StepKeepsInv(s, actions[0]);
      assert NoCrash(actions[1..], pid) by {
        assert forall i :: 0 <= i < |actions[1..]| ==> actions[1..][i] == actions[i + 1];
      }
      StuckRun(Step(s, actions[0]), actions[1..], pid);
    }
  }

  lemma StuckHolds(s: System, pid: nat)
    requires Inv(s) && IsStuck(s, pid)
    ensures s.lock == Some(pid)
  {
    assert Holding(s.processes[pid].phase);
  }

  /**
    From the moment an updater fails to remove its stage until its process exits, it holds the lock: no other
    process gets past its attempt to take it, and no update or cleanup changes anything.
   */
  lemma StuckUntilExit(s: System, before: seq<Action>, after: seq<Action>, pid: nat)
    requires Sane(s) && IsStuck(Run(s, before), pid) && NoCrash(after, pid)
    ensures var r := Run(Run(s, before), after);
            && IsStuck(r, pid) && r.lock == Some(pid) && SameDisk(Run(s, before), r)
            && (forall q :: q in r.processes && q != pid ==> !Holding(r.processes[q].phase))
  {
    hide Run;
    RunKeepsInv(s, before);
    StuckRun(Run(s, before), after, pid);
  }

  /** The removal of the stage that this process made fails at this step. */
  predicate RemovalFails(s: System, action: Action, pid: nat) {
    && action == Go(pid, Fails) && pid in s.processes
    && s.processes[pid].phase.RemovingStage? && s.processes[pid].phase.made.Some?
  }

  predicate RemovalEverFails(s: System, actions: seq<Action>, pid: nat)
    decreases |actions|
  {
    actions != [] && (RemovalFails(s, actions[0], pid) || RemovalEverFails(Step(s, actions[0]), actions[1..], pid))
  }

  lemma OwnStep(s: System, pid: nat, choice: Choice)
    requires pid in s.processes
    ensures var r := Advance(s, pid, choice);
            && OnlyMoves(s, r, pid)
            && (r.processes[pid].phase == Stuck
                <==> s.processes[pid].phase == Stuck || RemovalFails(s, Go(pid, choice), pid))
  {
    hide GoSweeping, GoStaging, GoFilling, GoPromoting, GoWritingTemporary, GoActivating, GoRemovingStage, Proceed;
  }

  lemma StuckIffStep(s: System, action: Action, pid: nat)
    requires pid in s.processes && action != Crash(pid)
    ensures var r := Step(s, action);
            pid in r.processes && (IsStuck(r, pid) <==> IsStuck(s, pid) || RemovalFails(s, action, pid))
  {
    hide Advance;
    if action.Go? && action.pid in s.processes {
      OwnStep(s, action.pid, action.choice);
    }
  }

  lemma {:induction false} StuckIff(s: System, actions: seq<Action>, pid: nat)
    requires pid in s.processes && NoCrash(actions, pid)
    ensures var r := Run(s, actions);
            pid in r.processes && (IsStuck(r, pid) <==> IsStuck(s, pid) || RemovalEverFails(s, actions, pid))
    decreases |actions|
  {
    hide Step, IsStuck, RemovalFails;
    if actions != [] {
      StuckIffStep(s, actions[0], pid);
      assert NoCrash(actions[1..], pid) by {
        assert forall i :: 0 <= i < |actions[1..]| ==> actions[1..][i] == actions[i + 1];
      }
      StuckIff(Step(s, actions[0]), actions[1..], pid);
    }
  }

  /** A live process that the lock names is between taking it and giving it back. */
  ghost predicate LockInUse(s: System) {
    s.lock.Some? && s.lock.value in s.processes ==> Holding(s.processes[s.lock.value].phase)
  }

  /** Only `Unlocking` stops holding, and it frees the lock; only `Locking` takes it, and it then holds it. */
  lemma LockStep(s: System, pid: nat, choice: Choice)
    requires pid in s.processes && (Holding(s.processes[pid].phase) ==> s.lock == Some(pid)) && LockInUse(s)
    ensures LockInUse(Advance(s, pid, choice))
  {
    hide GoSweeping, GoStaging, GoFilling, GoPromoting, GoWritingTemporary, GoActivating, GoRemovingStage, Proceed;
  }

  lemma StepUsesLock(s: System, action: Action)
    requires Inv(s) && LockInUse(s)
    ensures LockInUse(Step(s, action))
  {
    hide Advance;
    if action.Go? && action.pid in s.processes {
      LockStep(s, action.pid, action.choice);
    }
  }

  lemma {:induction false} RunUsesLock(s: System, actions: seq<Action>)
    requires Inv(s) && LockInUse(s)
    ensures Inv(Run(s, actions)) && LockInUse(Run(s, actions))
    decreases |actions|
  {
    hide Step, Inv, LockInUse;
    if actions != [] {
      StepUsesLock(s, actions[0]);
      StepKeepsInv(s, actions[0]);
      RunUsesLock(Step(s, actions[0]), actions[1..]);
    }
  }

  /**
    A process that has the lock and takes all its steps gives it back if and only if the removal of a stage
    that it made never fails.
   */
  lemma LockReturnedIff(s: System, before: seq<Action>, after: seq<Action>, pid: nat)
    requires Sane(s) && NoCrash(after, pid)
    requires var r := Run(s, before); pid in r.processes && Holding(r.processes[pid].phase) && !IsStuck(r, pid)
    requires var e := Run(Run(s, before), after);
             pid in e.processes ==> e.processes[pid].phase.Finished? || e.processes[pid].phase.Stuck?
    ensures var r := Run(s, before);
            Run(r, after).lock != Some(pid) <==> !RemovalEverFails(r, after, pid)
  {
    hide Run, RemovalEverFails;
    RunUsesLock(s, before);
    var r := Run(s, before);
    RunUsesLock(r, after);
    StuckIff(r, after, pid);
    var e := Run(r, after);
    if IsStuck(e, pid) {
      StuckHolds(e, pid);
    }
  }

  // ---- What no step touches ----------------------------------------------------------

  /** A release never changes once it is there, and a current version is only ever replaced by another. */
  ghost predicate Preserves(s: System, r: System) {
    && (forall v :: v in s.releases ==> v in r.releases && r.releases[v] == s.releases[v])
    && (forall v :: v in r.releases && v !in s.releases ==> Passes(r.releases[v], v))
    && (forall e: Entry :: e.Foreign? ==>
        (e in s.staging <==> e in r.staging) && (e in s.staging ==> r.staging[e] == s.staging[e]))
    && (s.current.Some? ==> r.current.Some?)
  }

  /** At most one of the updaters' entries of the staging directory is changed. */
  ghost predicate ChangesAt(s: System, r: System, entry: Entry) {
    && r.releases == s.releases && r.current == s.current && entry.Update?
    && (r.staging == s.staging || r.staging == Without(s.staging, entry)
        || (entry in r.staging && r.staging == s.staging[entry := r.staging[entry]]))
  }

  lemma ChangePreserves(s: System, r: System, entry: Entry)
    requires ChangesAt(s, r, entry)
    ensures Preserves(s, r)
  {
  }

  lemma SweepPreserves(s: System, pid: nat, entries: seq<Entry>, choice: Choice)
    requires pid in s.processes
    ensures Preserves(s, GoSweeping(s, pid, entries, choice))
  {
    hide Without, Preserves;
    var r := GoSweeping(s, pid, entries, choice);
    var entry := if entries != [] && entries[0].Update? then entries[0] else Update(0);
    assert ChangesAt(s, r, entry);
    ChangePreserves(s, r, entry);
  }

  lemma StagingPreserves(s: System, pid: nat, choice: Choice)
    requires pid in s.processes
    ensures Preserves(s, GoStaging(s, pid, choice))
  {
    hide Without, Preserves;
    ChangePreserves(s, GoStaging(s, pid, choice), Update(if choice.Makes? then choice.suffix else 0));
  }

  lemma FillingPreserves(s: System, pid: nat, stage: Entry, choice: Choice)
    requires pid in s.processes && stage.Update?
    ensures Preserves(s, GoFilling(s, pid, stage, choice))
  {
    hide Without, Preserves;
    ChangePreserves(s, GoFilling(s, pid, stage, choice), stage);
  }

  lemma RemovalPreserves(s: System, pid: nat, made: Option<Entry>, ok: bool, choice: Choice)
    requires pid in s.processes && MadeHere(made)
    ensures Preserves(s, GoRemovingStage(s, pid, made, ok, choice))
  {
    hide Without, Preserves;
    ChangePreserves(s, GoRemovingStage(s, pid, made, ok, choice), if made.Some? then made.value else Update(0));
  }

  lemma PromotionPreserves(s: System, pid: nat, stage: Entry, choice: Choice)
    requires pid in s.processes && s.processes[pid].phase == Promoting(stage) && PhaseInv(s, s.processes[pid])
    ensures Preserves(s, GoPromoting(s, pid, stage, choice))
  {
  }

  lemma ActivationPreserves(s: System, pid: nat, made: Option<Entry>, t: nat, choice: Choice)
    requires pid in s.processes && s.processes[pid].phase == Activating(made, t) && PhaseInv(s, s.processes[pid])
    ensures Preserves(s, GoActivating(s, pid, made, t, choice))
  {
  }

  lemma ProceedOnlyMoves(s: System, pid: nat, choice: Choice)
    requires pid in s.processes
    ensures var r := Proceed(s, pid, choice);
            r.releases == s.releases && r.staging == s.staging && r.current == s.current
  {
    hide Enter, Passes, Free, Without, AfterSweep;
  }

  lemma AdvancePreserves(s: System, pid: nat, choice: Choice)
    requires pid in s.processes && (Holding(s.processes[pid].phase) ==> PhaseInv(s, s.processes[pid]))
    ensures Preserves(s, Advance(s, pid, choice))
  {
    hide GoSweeping, GoStaging, GoFilling, GoPromoting, GoActivating, GoRemovingStage, Proceed, Preserves;
    match s.processes[pid].phase
    case Sweeping(entries) => SweepPreserves(s, pid, entries, choice);
    case Staging => StagingPreserves(s, pid, choice);
    case Filling(stage) => FillingPreserves(s, pid, stage, choice);
    case Promoting(stage) => PromotionPreserves(s, pid, stage, choice);
    case WritingTemporary(made, t) => SameDiskPreserves(s, GoWritingTemporary(s, pid, made, t, choice));
    case Activating(made, t) => ActivationPreserves(s, pid, made, t, choice);
    case RemovingStage(made, ok) => RemovalPreserves(s, pid, made, ok, choice);
    case _ =>
      ProceedOnlyMoves(s, pid, choice);
      SameDiskPreserves(s, Proceed(s, pid, choice));
  }

  lemma SameDiskPreserves(s: System, r: System)
    requires r.releases == s.releases && r.staging == s.staging && r.current == s.current
    ensures Preserves(s, r)
  {
  }

  lemma StepPreserves(s: System, action: Action)
    requires Inv(s)
    ensures Preserves(s, Step(s, action))
  {
    hide Advance, PhaseInv;
    if action.Go? && action.pid in s.processes {
      AdvancePreserves(s, action.pid, action.choice);
    }
  }

  lemma {:induction false} RunPreserves(s: System, actions: seq<Action>)
    requires Inv(s)
    ensures Preserves(s, Run(s, actions))
    decreases |actions|
  {
    hide Step, Inv;
    if actions != [] {
      StepPreserves(s, actions[0]);
      StepKeepsInv(s, actions[0]);
      RunPreserves(Step(s, actions[0]), actions[1..]);
    }
  }

  /** A sweep that meets no failure leaves no staging directory behind, whoever had left them. */
  lemma SweepIsComplete(s: System, actions: seq<Action>, pid: nat)
    requires Sane(s)
    ensures var r := Run(s, actions);
            pid in r.processes && r.processes[pid].phase == Sweeping([]) ==> forall e :: e in r.staging ==> e.Foreign?
  {
    hide Run;
    RunKeepsInv(s, actions);
    var r := Run(s, actions);
    if pid in r.processes && r.processes[pid].phase == Sweeping([]) {
      assert Holding(r.processes[pid].phase) && PhaseInv(r, r.processes[pid]);
    }
  }

  // ---- The installation directory ----------------------------------------------------

  lemma {:induction false} Extend(s: System, trace: seq<Action>, action: Action)
    ensures Run(s, trace + [action]) == Step(Run(s, trace), action)
    decreases |trace|
  {
    hide Step;
    if trace == [] {
      assert (trace + [action])[1..] == [];
    } else {
      assert (trace + [action])[1..] == trace[1..] + [action];
      Extend(Step(s, trace[0]), trace[1..], action);
    }
  }

  lemma {:induction false} RunsCompose(s: System, first: seq<Action>, second: seq<Action>)
    ensures Run(s, first + second) == Run(Run(s, first), second)
    decreases |first|
  {
    hide Step;
    if first == [] {
      assert first + second == second;
    } else {
      assert (first + second)[1..] == first[1..] + second;
      RunsCompose(Step(s, first[0]), first[1..], second);
    }
  }

  /** The steps of one process. */
  ghost predicate By(trace: seq<Action>, pid: nat) {
    forall i :: 0 <= i < |trace| ==> trace[i].Go? && trace[i].pid == pid
  }

  lemma Noted(s0: System, trace: seq<Action>, s: System, pid: nat, choice: Choice)
    requires s == Run(s0, trace) && By(trace, pid) && pid in s.processes
    ensures Run(s0, trace + [Go(pid, choice)]) == Advance(s, pid, choice) && By(trace + [Go(pid, choice)], pid)
  {
    hide Run, Advance;
    Extend(s0, trace, Go(pid, choice));
  }

  lemma NothingYet(s: System, pid: nat)
    ensures Run(s, []) == s && By([], pid)
  {
  }

  lemma Joined(s0: System, first: seq<Action>, s: System, second: seq<Action>, r: System, pid: nat)
    requires s == Run(s0, first) && r == Run(s, second) && By(first, pid) && By(second, pid)
    ensures r == Run(s0, first + second) && By(first + second, pid)
  {
    hide Run;
    RunsCompose(s0, first, second);
  }

  lemma CurrentOf(s: System)
    requires Inv(s)
    ensures CurrentInv(s)
  {
  }

  /**
    The update functions of one process. What the file system and the child processes answer is arbitrary;
    `trace` is the run of the process that the calls amount to.
   */
  class ManagedInstall {
    var current: Option<Version>
    var releases: map<Version, Tree>
    var staging: map<Entry, Tree>
    var temporaries: map<nat, Option<Version>>
    var lock: Option<nat>
    ghost var processes: map<nat, Process>

    constructor (current: Option<Version>, releases: map<Version, Tree>, ghost pid: nat, ghost job: Job)
      ensures Model() == System(current, releases, map[], map[], None, map[pid := Process(job, Locking)])
    {
      this.current, this.releases, staging, temporaries, lock := current, releases, map[], map[], None;
      processes := map[pid := Process(job, Locking)];
    }

    ghost function Model(): System
      reads this
    {
      System(current, releases, staging, temporaries, lock, processes)
    }

    ghost predicate At(pid: nat, job: Job, phase: Phase)
      reads this
    {
      pid in processes && processes[pid] == Process(job, phase)
    }

    /** The loop of `cleanupManagedStaging`, which ends at the first failure. */
    method SweepEntries(ghost pid: nat, ghost job: Job, entries: seq<Entry>) returns (ghost trace: seq<Action>)
      requires At(pid, job, Sweeping(entries))
      modifies this`staging, this`processes
      ensures Model() == Run(old(Model()), trace) && By(trace, pid)
      ensures At(pid, job, AfterSweep(job))
    {
      hide Run, By, Without;
      NothingYet(Model(), pid);
      trace := [];
      assert entries[0..] == entries;
      for i := 0 to |entries|
        invariant At(pid, job, Sweeping(entries[i..]))
        invariant Model() == Run(old(Model()), trace) && By(trace, pid)
      {
        var removed: bool := *;
        ghost var choice := if removed then Goes else Fails;
        Noted(old(Model()), trace, Model(), pid, choice);
        trace := trace + [Go(pid, choice)];
        assert entries[i..][0] == entries[i] && entries[i..][1..] == entries[i + 1..];
        if entries[i].Update? {
          if !removed {
            processes := processes[pid := Process(job, AfterSweep(job))];
            return;
          }
          staging := Without(staging, entries[i]);
        }
        processes := processes[pid := Process(job, Sweeping(entries[i + 1..]))];
      }
      Noted(old(Model()), trace, Model(), pid, Goes);
      trace := trace + [Go(pid, Goes)];
      processes := processes[pid := Process(job, AfterSweep(job))];
    }

    /** `cleanupManagedStaging` swallows its failures. */
    method CleanupManagedStaging(ghost pid: nat, ghost job: Job) returns (ghost trace: seq<Action>)
      requires At(pid, job, Listing)
      modifies this`staging, this`processes
      ensures Model() == Run(old(Model()), trace) && By(trace, pid)
      ensures At(pid, job, AfterSweep(job))
    {
      hide Run, By, Without;
      var entries: seq<Entry> := *;
      NothingYet(Model(), pid);
      Noted(old(Model()), [], Model(), pid, Lists(entries));
      ghost var listed := [] + [Go(pid, Lists(entries))];
      if (set e | e in entries) != staging.Keys {
        processes := processes[pid := Process(job, AfterSweep(job))];
        return listed;
      }
      processes := processes[pid := Process(job, Sweeping(entries))];
      ghost var before := Model();
      trace := SweepEntries(pid, job, entries);
      Joined(old(Model()), listed, before, trace, Model(), pid);
      trace := listed + trace;
    }

    /** The try block of `activateManagedRelease`: write a temporary file and rename it. */
    method RenameIntoPlace(ghost pid: nat, version: Version, ghost made: Option<Entry>, temporary: nat)
      returns (ok: bool, ghost trace: seq<Action>)
      requires At(pid, Updating(version), WritingTemporary(made, temporary))
      modifies this`temporaries, this`current, this`processes
      ensures Model() == Run(old(Model()), trace) && By(trace, pid)
      ensures At(pid, Updating(version), RemovingTemporary(made, temporary, ok))
      ensures current == if ok then Some(version) else old(current)
    {
      hide Run, By, Without;
      ghost var job := Updating(version);
      NothingYet(Model(), pid);
      var written: bool := *;
      ghost var choice := if written then Goes else Fails;
      Noted(old(Model()), [], Model(), pid, choice);
      trace := [] + [Go(pid, choice)];
      if !written {
        processes := processes[pid := Process(job, RemovingTemporary(made, temporary, false))];
        return false, trace;
      }
      temporaries := temporaries[temporary := Some(version)];
      processes := processes[pid := Process(job, Activating(made, temporary))];

      ok := *;
      choice := if ok then Goes else Fails;
      Noted(old(Model()), trace, Model(), pid, choice);
      trace := trace + [Go(pid, choice)];
      if ok {
        current := temporaries[temporary];
        temporaries := Without(temporaries, temporary);
      }
      processes := processes[pid := Process(job, RemovingTemporary(made, temporary, ok))];
    }

    /** `activateManagedRelease`: the temporary file is removed whatever happened. */
    method ActivateManagedRelease(ghost pid: nat, version: Version, ghost made: Option<Entry>)
      returns (ok: bool, ghost trace: seq<Action>)
      requires At(pid, Updating(version), NamingTemporary(made))
      modifies this`temporaries, this`current, this`processes
      ensures Model() == Run(old(Model()), trace) && By(trace, pid)
      ensures At(pid, Updating(version), RemovingStage(made, ok))
      ensures current == Some(version) || (!ok && current == old(current))
    {
      hide Run, By, Without;
      ghost var job := Updating(version);
      var temporary: nat := *;
      NothingYet(Model(), pid);
      Noted(old(Model()), [], Model(), pid, Names(temporary));
      ghost var named := [] + [Go(pid, Names(temporary))];
      processes := processes[pid := Process(job, WritingTemporary(made, temporary))];

      ghost var before := Model();
      ok, trace := RenameIntoPlace(pid, version, made, temporary);
      Joined(old(Model()), named, before, trace, Model(), pid);
      trace := named + trace;

      var removed: bool := *;
      ghost var choice := if removed then Goes else Fails;
      Noted(old(Model()), trace, Model(), pid, choice);
      trace := trace + [Go(pid, choice)];
      if removed {
        temporaries := Without(temporaries, temporary);
      } else {
        ok := false;
      }
      processes := processes[pid := Process(job, RemovingStage(made, ok))];
    }

    /** Download, install, verify and rename; the stage is named even if a later call fails. */
    method StageRelease(ghost pid: nat, version: Version)
      returns (staged: bool, made: Option<Entry>, ghost trace: seq<Action>)
      requires At(pid, Updating(version), Staging) && version !in releases
      modifies this`staging, this`releases, this`processes
      ensures Model() == Run(old(Model()), trace) && By(trace, pid)
      ensures At(pid, Updating(version), if staged then NamingTemporary(made) else RemovingStage(made, false))
      ensures if staged then version in releases && Passes(releases[version], version)
          && releases == old(releases)[version := releases[version]]
              else releases == old(releases)
    {
      hide Run, By, Without;
      ghost var job := Updating(version);
      NothingYet(Model(), pid);
      var suffix: nat := *;
      Noted(old(Model()), [], Model(), pid, Makes(suffix));
      trace := [] + [Go(pid, Makes(suffix))];
      var stage := Update(suffix);
      if stage in staging {
        processes := processes[pid := Process(job, RemovingStage(None, false))];
        return false, None, trace;
      }
      staging := staging[stage := Tree("", Broken)];
      processes := processes[pid := Process(job, Filling(stage))];

      var writes: seq<Tree> := *;
      for i := 0 to |writes|
        invariant At(pid, job, Filling(stage)) && stage in staging && releases == old(releases)
        invariant Model() == Run(old(Model()), trace) && By(trace, pid)
      {
        Noted(old(Model()), trace, Model(), pid, Writes(writes[i]));
        trace := trace + [Go(pid, Writes(writes[i]))];
        staging := staging[stage := writes[i]];
      }
      var installed: bool := *;
      ghost var choice := if installed then Goes else Fails;
      Noted(old(Model()), trace, Model(), pid, choice);
      trace := trace + [Go(pid, choice)];
      if !installed {
        processes := processes[pid := Process(job, RemovingStage(Some(stage), false))];
        return false, Some(stage), trace;
      }
      processes := processes[pid := Process(job, VerifyingStage(stage))];

      ghost var before, verified := Model(), trace;
      staged, trace := Promote(pid, version, stage);
      made := Some(stage);
      Joined(old(Model()), verified, before, trace, Model(), pid);
      trace := verified + trace;
    }

    /** `verifyManagedRelease` on the stage, then the rename. */
    method Promote(ghost pid: nat, version: Version, stage: Entry) returns (promoted: bool, ghost trace: seq<Action>)
      requires At(pid, Updating(version), VerifyingStage(stage)) && version !in releases && stage in staging
      modifies this`staging, this`releases, this`processes
      ensures Model() == Run(old(Model()), trace) && By(trace, pid)
      ensures At(pid, Updating(version), if promoted then NamingTemporary(Some(stage))
          else RemovingStage(Some(stage), false))
      ensures promoted ==>
                Passes(old(staging)[stage], version) && releases == old(releases)[version := old(staging)[stage]]
      ensures !promoted ==> releases == old(releases) && staging == old(staging)
    {
      hide Run, By, Without;
      ghost var job := Updating(version);
      NothingYet(Model(), pid);
      Noted(old(Model()), [], Model(), pid, Goes);
      trace := [] + [Go(pid, Goes)];
      if staging[stage].program != Prints(version) {
        processes := processes[pid := Process(job, RemovingStage(Some(stage), false))];
        return false, trace;
      }
      processes := processes[pid := Process(job, Promoting(stage))];

      promoted := *;
      ghost var choice := if promoted then Goes else Fails;
      Noted(old(Model()), trace, Model(), pid, choice);
      trace := trace + [Go(pid, choice)];
      if !promoted {
        processes := processes[pid := Process(job, RemovingStage(Some(stage), false))];
        return;
      }
      releases := releases[version := staging[stage]];
      staging := Without(staging, stage);
      processes := processes[pid := Process(job, NamingTemporary(Some(stage)))];
    }

    /** The finally block: if the stage cannot be removed, the lock is not given back. */
    method CleanUp(ghost pid: nat, ghost version: Version, made: Option<Entry>, ok: bool, removable: bool)
      returns (done: bool, ghost trace: seq<Action>)
      requires At(pid, Updating(version), RemovingStage(made, ok))
      modifies this`staging, this`lock, this`processes
      ensures Model() == Run(old(Model()), trace) && By(trace, pid)
      ensures done <==> made == None || removable
      ensures if done then At(pid, Updating(version), Finished(ok)) && lock == None
          && (made.Some? ==> made.value !in staging)
              else At(pid, Updating(version), Stuck) && lock == old(lock)
    {
      hide Run, By;
      ghost var job := Updating(version);
      NothingYet(Model(), pid);
      done := removable || made == None;
      ghost var choice := if done then Goes else Fails;
      Noted(old(Model()), [], Model(), pid, choice);
      trace := [] + [Go(pid, choice)];
      if !done {
        processes := processes[pid := Process(job, Stuck)];
        return;
      }
      if made.Some? {
        staging := Without(staging, made.value);
      }
      processes := processes[pid := Process(job, Unlocking(ok))];

      Noted(old(Model()), trace, Model(), pid, Goes);
      trace := trace + [Go(pid, Goes)];
      lock := None;
      processes := processes[pid := Process(job, Finished(ok))];
    }

    /** `lockfile.lock`: a live holder keeps the lock. */
    method TakeLock(pid: nat, ghost job: Job, live: bool) returns (locked: bool, ghost trace: seq<Action>)
      requires At(pid, job, Locking) && (live <==> !Free(Model()))
      modifies this`lock, this`processes
      ensures Model() == Run(old(Model()), trace) && By(trace, pid)
      ensures At(pid, job, if locked then Listing else Finished(false))
      ensures if locked then !live && lock == Some(pid) else lock == old(lock)
    {
      hide Run, By;
      NothingYet(Model(), pid);
      locked := *;
      locked := locked && !live;
      ghost var choice := if locked then Goes else Fails;
      Noted(old(Model()), [], Model(), pid, choice);
      trace := [] + [Go(pid, choice)];
      if locked {
        lock := Some(pid);
      }
      processes := processes[pid := Process(job, if locked then Listing else Finished(false))];
    }

    /** Reuses a release that is there and passes, and stages it otherwise if it is not there. */
    method ProvideRelease(ghost pid: nat, version: Version)
      returns (provided: bool, made: Option<Entry>, ghost trace: seq<Action>)
      requires At(pid, Updating(version), LookingUp)
      modifies this`staging, this`releases, this`processes
      ensures Model() == Run(old(Model()), trace) && By(trace, pid)
      ensures At(pid, Updating(version), if provided then NamingTemporary(made) else RemovingStage(made, false))
      ensures provided ==> version in releases && Passes(releases[version], version)
      ensures version in old(releases) ==> releases == old(releases) && made == None
    {
      hide Run, By;
      ghost var job := Updating(version);
      NothingYet(Model(), pid);
      var ready: bool := *;
      ghost var choice := if ready then Goes else Fails;
      Noted(old(Model()), [], Model(), pid, choice);
      trace := [] + [Go(pid, choice)];
      if !ready {
        processes := processes[pid := Process(job, RemovingStage(None, false))];
        return false, None, trace;
      }
      if version in releases {
        processes := processes[pid := Process(job, VerifyingRelease)];
        Noted(old(Model()), trace, Model(), pid, Goes);
        trace := trace + [Go(pid, Goes)];
        provided, made := releases[version].program == Prints(version), None;
        processes := processes[pid := Process(job, if provided then NamingTemporary(None)
            else RemovingStage(None, false))];
        return;
      }
      processes := processes[pid := Process(job, Staging)];
      ghost var before, first := Model(), trace;
      provided, made, trace := StageRelease(pid, version);
      Joined(old(Model()), first, before, trace, Model(), pid);
      trace := first + trace;
    }

    /** What `runManagedSelfUpdate` does once it has the lock. */
    method UpdateLocked(ghost pid: nat, version: Version) returns (ok: bool, ghost trace: seq<Action>)
      requires At(pid, Updating(version), Listing)
      modifies this
      ensures Model() == Run(old(Model()), trace) && By(trace, pid)
      ensures ok ==> At(pid, Updating(version), Finished(true)) && lock == None && current == Some(version)
      ensures current == old(current) || current == Some(version)
    {
      hide Run, By;
      trace := CleanupManagedStaging(pid, Updating(version));

      ghost var before, first := Model(), trace;
      var made;
      ok, made, trace := ProvideRelease(pid, version);
      Joined(old(Model()), first, before, trace, Model(), pid);
      before, first := Model(), first + trace;

      if ok {
        ok, trace := ActivateManagedRelease(pid, version, made);
        Joined(old(Model()), first, before, trace, Model(), pid);
        before, first := Model(), first + trace;
      }
      var removable: bool := *;
      var done;
      done, trace := CleanUp(pid, version, made, ok, removable);
      Joined(old(Model()), first, before, trace, Model(), pid);
      trace := first + trace;
      ok := ok && done;
    }

    /** A whole update is a run of its process, so everything proved of all runs holds of it. */
    method RunManagedSelfUpdate(pid: nat, version: Version, live: bool) returns (ok: bool, ghost trace: seq<Action>)
      requires Inv(Model()) && At(pid, Updating(version), Locking) && (live <==> !Free(Model()))
      modifies this
      ensures Model() == Run(old(Model()), trace) && By(trace, pid) && Inv(Model())
      ensures ok ==> !live && lock == None && current == Some(version) && Verified(Model(), version)
      ensures current == old(current) || current == Some(version)
      ensures live ==>
                staging == old(staging) && releases == old(releases) && lock == old(lock) && current == old(current)
    {
      hide Run, By, Inv;
      ok, trace := TakeLock(pid, Updating(version), live);
      if ok {
        ghost var before, first := Model(), trace;
        ok, trace := UpdateLocked(pid, version);
        Joined(old(Model()), first, before, trace, Model(), pid);
        trace := first + trace;
      }
      RunKeepsInv(old(Model()), trace);
      CurrentOf(Model());
    }

    /** `cleanupManagedInstall` */
    method CleanupManagedInstall(pid: nat, live: bool) returns (ghost trace: seq<Action>)
      requires Inv(Model()) && At(pid, Cleaning, Locking) && (live <==> !Free(Model()))
      modifies this`staging, this`lock, this`processes
      ensures Model() == Run(old(Model()), trace) && By(trace, pid) && Inv(Model())
      ensures live ==> staging == old(staging) && lock == old(lock)
      ensures !live ==> lock == None || lock == old(lock)
    {
      hide Run, By, Inv;
      var locked;
      locked, trace := TakeLock(pid, Cleaning, live);
      if locked {
        ghost var before, first := Model(), trace;
        trace := CleanupManagedStaging(pid, Cleaning);
        Joined(old(Model()), first, before, trace, Model(), pid);
        trace := first + trace;
        Noted(old(Model()), trace, Model(), pid, Goes);
        trace := trace + [Go(pid, Goes)];
        lock := None;
        processes := processes[pid := Process(Cleaning, Finished(true))];
      }
      RunKeepsInv(old(Model()), trace);
    }
  }
}
