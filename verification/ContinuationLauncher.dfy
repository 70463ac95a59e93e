/** Several launcher processes share one unaided prefix per problem and seed. Each owns its branch
    by the branch's lock; only a branch without an archive waits for the prefix lock, finishes the
    prefix and forks it. A process may vanish at any moment; its locks are then free. */
module ContinuationLauncher {
  import opened Options
  import opened Refinement
  import opened RefinementRuns
  import opened Continuations
  import opened PhaseOutcomes
  import opened PhaseOrder
  import SelfRefine

  type Worker = nat
  type Branch = string

  datatype Setup = Setup(problem: string, settings: Settings) {
    /** The prefix advertises four blocks and pauses at three. */
    function PrefixRequest(): Progress
      requires settings.block > 0
    {
      Initial(problem, 4 * settings.block, Some(3 * settings.block), settings.block)
    }

    function BranchRequest(budget: int): Progress
      requires settings.block > 0
    {
      Initial(problem, budget, None, settings.block)
    }

    ghost predicate Valid() {
      settings.Valid() && !Blank(problem)
    }
  }

  /** A process between its steps. */
  datatype Stage =
    | Idle
    | AwaitingPrefix(branch: Branch)
    | Preparing(branch: Branch)
    | Working(branch: Branch, budget: int)

  datatype World = World(stages: map<Worker, Stage>, branchLocks: map<Branch, Worker>, prefixLock: Option<Worker>,
                         prefix: Option<Saved>, branches: map<Branch, Saved>)
  {
    function StageOf(w: Worker): Stage {
      if w in stages then stages[w] else Idle
    }

    function At(w: Worker, stage: Stage): World {
      this.(stages := stages[w := stage])
    }

    function WithoutPrefixLock(w: Worker): World {
      if prefixLock == Some(w) then this.(prefixLock := None) else this
    }

    /** Leaving, failing and dying all release whatever locks are held. */
    function Released(w: Worker): World {
      match StageOf(w)
      case Idle => this
      case AwaitingPrefix(b) => At(w, Idle).(branchLocks := branchLocks - {b})
      case Preparing(b) => At(w, Idle).(branchLocks := branchLocks - {b}).WithoutPrefixLock(w)
      case Working(b, _) => At(w, Idle).(branchLocks := branchLocks - {b})
    }
  }

  datatype Action =
    | Enter(worker: Worker, branch: Branch)
    | LockPrefix(worker: Worker)
    | RunPrefix(worker: Worker, attempts: seq<Attempt>)
    | PublishFork(worker: Worker)
    | RunBranch(worker: Worker, attempts: seq<Attempt>)
    | Release(worker: Worker)

  /** Locks are taken only when free; everything else depends on the process alone. */
  predicate Enabled(world: World, a: Action) {
    match a
    case Enter(w, b) => world.StageOf(w).Idle? && b !in world.branchLocks
    case LockPrefix(w) => world.StageOf(w).AwaitingPrefix? && world.prefixLock.None?
    case RunPrefix(w, _) => world.StageOf(w).Preparing?
    case PublishFork(w) => world.StageOf(w).Preparing?
    case RunBranch(w, _) => world.StageOf(w).Working?
    case Release(w) => !world.StageOf(w).Idle?
  }

  /** The prefix archive after a process has worked on it; None if the archive refuses the request. */
  function PrefixAfter(prefix: Option<Saved>, attempts: seq<Attempt>, setup: Setup): Option<Saved>
    requires setup.settings.block > 0
  {
    var start := Opened(prefix, setup.PrefixRequest());
    if start.None? then None else Some(Play(start.value, 0, attempts, setup.settings).saved)
  }

  /** The branch archive a stopped prefix grants: one block beyond the tokens the prefix has spent. */
  function BranchOf(prefix: Saved, setup: Setup): Option<Saved>
    requires setup.settings.block > 0
  {
    Forked(prefix, Some(prefix.progress.tokens + setup.settings.block), setup.settings.block)
  }

  function Do(world: World, a: Action, setup: Setup): World
    requires setup.settings.block > 0 && Enabled(world, a)
  {
    var w := a.worker;
    match a
    case Enter(_, b) =>
      var owned := world.(branchLocks := world.branchLocks[b := w]);
      if b in world.branches then owned.At(w, Working(b, world.branches[b].progress.budget))
      else owned.At(w, AwaitingPrefix(b))
    case LockPrefix(_) =>
      world.(prefixLock := Some(w)).At(w, Preparing(world.StageOf(w).branch))
    case RunPrefix(_, attempts) =>
      var prefix := PrefixAfter(world.prefix, attempts, setup);
      if prefix.None? then world.Released(w) else world.(prefix := prefix)
    case PublishFork(_) =>
      var b, loaded := world.StageOf(w).branch, Opened(world.prefix, setup.PrefixRequest());
      if loaded.None? then world.Released(w)
      else
        var owned := world.(prefix := loaded);
        if loaded.value.progress.status == Running || b in world.branches || BranchOf(loaded.value, setup).None? then
          owned.Released(w)
        else
          var fork := BranchOf(loaded.value, setup).value;
          owned.(branches := world.branches[b := fork]).WithoutPrefixLock(w).At(w, Working(b, fork.progress.budget))
    case RunBranch(_, attempts) =>
      var Working(b, budget) := world.StageOf(w);
      var start := Opened(if b in world.branches then Some(world.branches[b]) else None, setup.BranchRequest(budget));
      if start.None? then world.Released(w)
      else world.(branches := world.branches[b := Play(start.value, 0, attempts, setup.settings).saved])
    case Release(_) => world.Released(w)
  }

  /** A schedule of steps by any processes; a step that is not possible does nothing. */
  function Execute(world: World, actions: seq<Action>, setup: Setup): World
    requires setup.settings.block > 0
  {
    if actions == [] then world
    else
      var before := Execute(world, actions[..|actions| - 1], setup);
      var a := actions[|actions| - 1];
      if Enabled(before, a) then Do(before, a, setup) else before
  }

  const START: World := World(map[], map[], None, None, map[])

  // ----- the invariant

  ghost predicate GenuineRuns(runs: seq<seq<Attempt>>) {
    forall i :: 0 <= i < |runs| ==> AllGenuine(runs[i])
  }

  /** The archive is what some sequence of runs made of its start. */
  ghost predicate Grown(start: Saved, d: Saved, settings: Settings) {
    exists runs :: GenuineRuns(runs) && d == Replay(start, runs, settings)
  }

  function FreshPrefix(setup: Setup): Saved
    requires setup.settings.block > 0
  {
    Saved(setup.PrefixRequest(), {}, None, false)
  }

  ghost predicate BranchSafe(prefix: Option<Saved>, d: Saved, setup: Setup)
    requires setup.settings.block > 0
  {
    && prefix.Some? && prefix.value.progress.status != Running
    && BranchOf(prefix.value, setup).Some? && Grown(BranchOf(prefix.value, setup).value, d, setup.settings)
    && d.progress.budget == prefix.value.progress.tokens + setup.settings.block
  }

  ghost predicate Locked(world: World) {
    && (forall w: Worker :: !world.StageOf(w).Idle? ==>
          world.StageOf(w).branch in world.branchLocks && world.branchLocks[world.StageOf(w).branch] == w)
    && (forall b :: b in world.branchLocks ==>
          !world.StageOf(world.branchLocks[b]).Idle? && world.StageOf(world.branchLocks[b]).branch == b)
    && (forall w: Worker :: world.StageOf(w).Preparing? <==> world.prefixLock == Some(w))
  }

  ghost predicate Staged(world: World) {
    forall w: Worker ::
      match world.StageOf(w)
      case Idle => true
      case AwaitingPrefix(b) => b !in world.branches
      case Preparing(b) => b !in world.branches
      case Working(b, budget) => b in world.branches && world.branches[b].progress.budget == budget
  }

  ghost predicate Safe(world: World, setup: Setup)
    requires setup.settings.block > 0
  {
    && Locked(world) && Staged(world)
    && (world.prefix.Some? ==> Grown(FreshPrefix(setup), world.prefix.value, setup.settings))
    && (forall b :: b in world.branches ==> BranchSafe(world.prefix, world.branches[b], setup))
  }

  /** What no step undoes: a stopped prefix stays as it is, and a branch keeps its archive, its
      budget and every frozen label. */
  ghost predicate Preserves(before: World, after: World) {
    && (before.prefix.Some? && before.prefix.value.progress.status != Running ==> after.prefix == before.prefix)
    && (forall b :: b in before.branches ==>
          b in after.branches && Extends(before.branches[b].progress, after.branches[b].progress))
  }

  // ----- archives

  lemma GrownFromStart(start: Saved, settings: Settings)
    ensures Grown(start, start, settings)
  {
    assert GenuineRuns([]) && start == Replay(start, [], settings);
  }

  lemma GrownFurther(start: Saved, d: Saved, attempts: seq<Attempt>, settings: Settings)
    requires Grown(start, d, settings) && AllGenuine(attempts)
    ensures Grown(start, Play(d, 0, attempts, settings).saved, settings)
  {
    hide Play, AllGenuine;
    var runs :| GenuineRuns(runs) && d == Replay(start, runs, settings);
    assert (runs + [attempts])[..|runs|] == runs;
    assert GenuineRuns(runs + [attempts]);
  }

  lemma GrownSound(start: Saved, d: Saved, h: seq<Entry>, kept: int, settings: Settings) returns (h': seq<Entry>)
    requires settings.Valid() && Grown(start, d, settings) && Sound(start.progress, h, kept, settings.block)
    ensures Sound(d.progress, h', kept, settings.block) && Extends(start.progress, d.progress)
  {
    var runs :| GenuineRuns(runs) && d == Replay(start, runs, settings);
    ReplayKeeps(start, runs, h, kept, settings);
    h' := ReplayHistory(h, start, runs, settings);
  }

  lemma ThreeBlocks(block: nat)
    requires block > 0
    ensures CeilDiv(3 * block, block) == 3
  {
    var c := CeilDiv(3 * block, block);
    CeilDivBounds(3 * block, block);
    if c < 3 { BlockOrder(c, 2, block); }
    if c > 3 { BlockOrder(4, c, block); }
  }

  /** The prefix archive always agrees with a history, has three labels to freeze and answers the
      prefix request. */
  lemma PrefixFacts(d: Saved, setup: Setup) returns (h: seq<Entry>)
    requires setup.Valid() && Grown(FreshPrefix(setup), d, setup.settings)
    ensures Sound(d.progress, h, 0, setup.settings.block) && Allotted(d.progress, 0, setup.settings.block)
    ensures d.progress.count == 3 && Opened(Some(d), setup.PrefixRequest()) == Some(d)
  {
    hide Sound, Grown, Blank;
    var block := setup.settings.block;
    FreshIsReady(setup.problem, 4 * block, Some(3 * block), block);
    ReadyIsSound(setup.PrefixRequest(), [], 0, block);
    h := GrownSound(FreshPrefix(setup), d, [], 0, setup.settings);
    ThreeBlocks(block);
  }

  lemma ReadyIsSound(p: Progress, h: seq<Entry>, kept: int, block: nat)
    requires Ready(p, h, kept, block)
    ensures Sound(p, h, kept, block)
  {
  }

  /** A stopped prefix can be forked; the branch archive has all three prefix labels, one more to
      freeze, and answers the request for its own budget. */
  lemma BranchFacts(prefix: Saved, d: Saved, setup: Setup) returns (h: seq<Entry>)
    requires setup.Valid() && Grown(FreshPrefix(setup), prefix, setup.settings) && prefix.progress.status != Running
    ensures BranchOf(prefix, setup).Some?
    ensures Grown(BranchOf(prefix, setup).value, d, setup.settings) ==>
      && Extends(BranchOf(prefix, setup).value.progress, d.progress)
      && Sound(d.progress, h, 3, setup.settings.block) && Allotted(d.progress, 3, setup.settings.block)
      && d.progress.count == 4 && d.progress.pauseAt.None?
        && d.progress.budget == prefix.progress.tokens + setup.settings.block
      && (forall m :: m in prefix.progress.frozen ==>
            m in d.progress.frozen && d.progress.frozen[m] == prefix.progress.frozen[m])
      && |prefix.progress.frozen| == 3
      && Opened(Some(d), setup.BranchRequest(d.progress.budget)) == Some(d)
  {
    hide Sound, Grown, Blank, Stopped;
    h := PrefixFacts(prefix, setup);
    var block := setup.settings.block;
    SoundFacts(prefix.progress, h, 0, block);
    StopsComplete(prefix.progress, h, 0, block);
    OneBlockFork(prefix, h, 0, setup.settings);
    var b := BranchOf(prefix, setup).value;
    if Grown(b, d, setup.settings) {
      ReadyIsSound(b.progress, h, 3, block);
      h := GrownSound(b, d, h, 3, setup.settings);
      SoundFacts(d.progress, h, 3, block);
      FreshIsReady(setup.problem, d.progress.budget, None, block);
      ForkProblem(prefix, setup);
    }
  }

  lemma ForkProblem(prefix: Saved, setup: Setup)
    requires setup.settings.block > 0 && BranchOf(prefix, setup).Some?
    ensures BranchOf(prefix, setup).value.progress.problem == prefix.progress.problem
    ensures BranchOf(prefix, setup).value.progress.pauseAt.None?
  {
  }

  // ----- every step

  lemma ReleaseLocks(world: World, w: Worker)
    requires Locked(world)
    ensures Locked(world.Released(w))
  {
    var after := world.Released(w);
    forall v: Worker | v != w ensures after.StageOf(v) == world.StageOf(v) {}
    forall b | b in after.branchLocks
      ensures !after.StageOf(after.branchLocks[b]).Idle? && after.StageOf(after.branchLocks[b]).branch == b {
      assert world.StageOf(world.branchLocks[b]).branch == b;
    }
  }

  lemma ReleaseStages(world: World, w: Worker)
    requires Staged(world)
    ensures Staged(world.Released(w))
  {
    var after := world.Released(w);
    forall v: Worker | v != w ensures after.StageOf(v) == world.StageOf(v) {}
  }

  /** Releasing touches no archive and frees exactly the process's own locks. */
  lemma ReleaseKeeps(world: World, w: Worker, setup: Setup)
    requires setup.Valid() && Safe(world, setup)
    ensures Safe(world.Released(w), setup) && world.Released(w).StageOf(w).Idle?
    ensures world.Released(w).prefix == world.prefix && world.Released(w).branches == world.branches
  {
    hide Grown, BranchSafe, Blank, Staged, Locked;
    ReleaseLocks(world, w);
    ReleaseStages(world, w);
  }

  lemma EnterLocks(world: World, w: Worker, b: Branch, setup: Setup)
    requires setup.settings.block > 0 && Locked(world) && Enabled(world, Enter(w, b))
    ensures Locked(Do(world, Enter(w, b), setup))
  {
    var after := Do(world, Enter(w, b), setup);
    forall v: Worker | v != w ensures after.StageOf(v) == world.StageOf(v) {}
    forall v: Worker | !world.StageOf(v).Idle? ensures world.StageOf(v).branch != b {}
  }

  lemma EnterStages(world: World, w: Worker, b: Branch, setup: Setup)
    requires setup.settings.block > 0 && Staged(world) && Enabled(world, Enter(w, b))
    ensures Staged(Do(world, Enter(w, b), setup))
  {
    var after := Do(world, Enter(w, b), setup);
    forall v: Worker | v != w ensures after.StageOf(v) == world.StageOf(v) {}
  }

  lemma EnterKeeps(world: World, w: Worker, b: Branch, setup: Setup)
    requires setup.Valid() && Safe(world, setup) && Enabled(world, Enter(w, b))
    ensures Safe(Do(world, Enter(w, b), setup), setup)
  {
    hide Grown, BranchSafe, Blank, Staged, Locked;
    EnterLocks(world, w, b, setup);
    EnterStages(world, w, b, setup);
  }

  lemma LockPrefixKeeps(world: World, w: Worker, setup: Setup)
    requires setup.Valid() && Safe(world, setup) && Enabled(world, LockPrefix(w))
    ensures Safe(Do(world, LockPrefix(w), setup), setup)
  {
    hide Grown, BranchSafe, Blank;
    var after := Do(world, LockPrefix(w), setup);
    forall v: Worker | v != w ensures after.StageOf(v) == world.StageOf(v) {}
  }

  /** The prefix archive after more work on it; once stopped it does not change. */
  lemma PrefixAfterFacts(world: World, attempts: seq<Attempt>, setup: Setup)
    requires setup.Valid() && Safe(world, setup) && AllGenuine(attempts)
    ensures var after := PrefixAfter(world.prefix, attempts, setup);
      && after.Some? && Grown(FreshPrefix(setup), after.value, setup.settings)
      && (world.prefix.Some? && world.prefix.value.progress.status != Running ==> after == world.prefix)
  {
    hide Grown, BranchSafe, Staged, Locked, Blank;
    var block := setup.settings.block;
    FreshIsReady(setup.problem, 4 * block, Some(3 * block), block);
    GrownFromStart(FreshPrefix(setup), setup.settings);
    var start := Opened(world.prefix, setup.PrefixRequest());
    if world.prefix.Some? { var _ := PrefixFacts(world.prefix.value, setup); }
    GrownFurther(FreshPrefix(setup), start.value, attempts, setup.settings);
  }

  lemma RunPrefixKeeps(world: World, w: Worker, attempts: seq<Attempt>, setup: Setup)
    requires setup.Valid() && Safe(world, setup) && Enabled(world, RunPrefix(w, attempts)) && AllGenuine(attempts)
    ensures var after := Do(world, RunPrefix(w, attempts), setup); Safe(after, setup) && Preserves(world, after)
  {
    hide Grown, PrefixAfter, Blank, Extends;
    PrefixAfterFacts(world, attempts, setup);
    BranchesExtend(world);
    OwnedIsSafe(world, world.(prefix := PrefixAfter(world.prefix, attempts, setup)), setup);
  }

  lemma BranchesExtend(world: World)
    ensures forall b :: b in world.branches ==> Extends(world.branches[b].progress, world.branches[b].progress)
  {
  }

  lemma OpenedPrefix(world: World, setup: Setup)
    requires setup.Valid() && Safe(world, setup)
    ensures var start := Opened(world.prefix, setup.PrefixRequest());
      && start.Some? && Grown(FreshPrefix(setup), start.value, setup.settings)
      && (world.prefix.Some? ==> start == world.prefix)
  {
    hide Grown, BranchSafe, Staged, Locked, Blank;
    var block := setup.settings.block;
    FreshIsReady(setup.problem, 4 * block, Some(3 * block), block);
    GrownFromStart(FreshPrefix(setup), setup.settings);
    if world.prefix.Some? { var _ := PrefixFacts(world.prefix.value, setup); }
  }

  /** Publishing a fork adds one branch archive and gives the prefix lock back. */
  lemma PublishForkKeeps(world: World, w: Worker, setup: Setup)
    requires setup.Valid() && Safe(world, setup) && Enabled(world, PublishFork(w))
    ensures var after := Do(world, PublishFork(w), setup); Safe(after, setup) && Preserves(world, after)
  {
    hide Grown, BranchSafe, Blank, Opened, BranchOf, Extends;
    OpenedPrefix(world, setup);
    BranchesExtend(world);
    var loaded := Opened(world.prefix, setup.PrefixRequest());
    var owned := world.(prefix := loaded);
    assert Safe(owned, setup) by { OwnedIsSafe(world, owned, setup); }
    var b := world.StageOf(w).branch;
    if loaded.value.progress.status == Running {
      ReleaseKeeps(owned, w, setup);
    } else {
      BranchStarts(loaded.value, setup);
      PublishedIsSafe(owned, w, BranchOf(loaded.value, setup).value, setup);
    }
  }

  lemma OwnedIsSafe(world: World, owned: World, setup: Setup)
    requires setup.Valid() && Safe(world, setup) && owned == world.(prefix := owned.prefix)
    requires owned.prefix.Some? && Grown(FreshPrefix(setup), owned.prefix.value, setup.settings)
    requires world.prefix.Some? && world.prefix.value.progress.status != Running ==> owned.prefix == world.prefix
    ensures Safe(owned, setup)
  {
    hide Grown, Blank;
    forall v: Worker ensures owned.StageOf(v) == world.StageOf(v) {}
  }

  lemma BranchStarts(prefix: Saved, setup: Setup)
    requires setup.Valid() && Grown(FreshPrefix(setup), prefix, setup.settings) && prefix.progress.status != Running
    ensures BranchOf(prefix, setup).Some? && BranchSafe(Some(prefix), BranchOf(prefix, setup).value, setup)
  {
    hide Grown;
    var fork := BranchOf(prefix, setup);
    var _ := BranchFacts(prefix, prefix, setup);
    GrownFromStart(fork.value, setup.settings);
    var _ := BranchFacts(prefix, fork.value, setup);
  }

  lemma PublishedIsSafe(owned: World, w: Worker, fork: Saved, setup: Setup)
    requires setup.Valid() && Safe(owned, setup) && owned.StageOf(w).Preparing? && BranchSafe(owned.prefix, fork, setup)
    ensures var b := owned.StageOf(w).branch;
      Safe(owned.(branches := owned.branches[b := fork]).WithoutPrefixLock(w).At(w, Working(b, fork.progress.budget)),
           setup)
  {
    hide Grown, BranchSafe, Blank;
    var b := owned.StageOf(w).branch;
    var unlocked := owned.(branches := owned.branches[b := fork]).WithoutPrefixLock(w);
    var after := unlocked.At(w, Working(b, fork.progress.budget));
    forall v: Worker | v != w ensures after.StageOf(v) == owned.StageOf(v) {}
    forall v: Worker | v != w && !owned.StageOf(v).Idle? ensures owned.StageOf(v).branch != b {}
  }

  /** Work on a branch changes that branch alone and only forwards. */
  lemma RunBranchKeeps(world: World, w: Worker, attempts: seq<Attempt>, setup: Setup)
    requires setup.Valid() && Safe(world, setup) && Enabled(world, RunBranch(w, attempts)) && AllGenuine(attempts)
    ensures var after := Do(world, RunBranch(w, attempts), setup); Safe(after, setup) && Preserves(world, after)
  {
    hide Grown, Blank, Opened, Extends, Play, AllGenuine, Sound, BranchOf;
    var Working(b, budget) := world.StageOf(w);
    var prefix, d := world.prefix.value, world.branches[b];
    assert BranchSafe(world.prefix, d, setup);
    var h := BranchFacts(prefix, d, setup);
    RunKeeps(d, 0, attempts, h, 3, setup.settings);
    GrownFurther(BranchOf(prefix, setup).value, d, attempts, setup.settings);
    var d' := Play(d, 0, attempts, setup.settings).saved;
    var _ := BranchFacts(prefix, d', setup);
    BranchesExtend(world);
    var after := Do(world, RunBranch(w, attempts), setup);
    assert after == world.(branches := world.branches[b := d']);
    forall v: Worker ensures after.StageOf(v) == world.StageOf(v) {}
  }

  ghost predicate GenuineAction(a: Action) {
    match a
    case RunPrefix(_, attempts) => AllGenuine(attempts)
    case RunBranch(_, attempts) => AllGenuine(attempts)
    case Enter(_, _) => true
    case LockPrefix(_) => true
    case PublishFork(_) => true
    case Release(_) => true
  }

  lemma StepKeepsWorld(world: World, a: Action, setup: Setup)
    requires setup.Valid() && Safe(world, setup) && Enabled(world, a) && GenuineAction(a)
    ensures Safe(Do(world, a, setup), setup) && Preserves(world, Do(world, a, setup))
  {
    hide Grown, BranchSafe, Blank, Staged, Locked, Extends, Opened, BranchOf, PrefixAfter, Play;
    BranchesExtend(world);
    match a
    case Enter(w, b) => EnterKeeps(world, w, b, setup);
    case LockPrefix(w) => LockPrefixKeeps(world, w, setup);
    case RunPrefix(w, attempts) => RunPrefixKeeps(world, w, attempts, setup);
    case PublishFork(w) => PublishForkKeeps(world, w, setup);
    case RunBranch(w, attempts) => RunBranchKeeps(world, w, attempts, setup);
    case Release(w) => ReleaseKeeps(world, w, setup);
  }

  // ----- every schedule

  /** Any number of processes, any interleaving, any crashes: the invariant holds throughout. */
  lemma {:induction false} EveryScheduleIsSafe(actions: seq<Action>, setup: Setup)
    requires setup.Valid() && forall i :: 0 <= i < |actions| ==> GenuineAction(actions[i])
    ensures Safe(Execute(START, actions, setup), setup)
  {
    hide Safe, Do, Enabled, GenuineAction, Preserves, Blank;
    if actions == [] {
      StartIsSafe(setup);
    } else {
      var before := Execute(START, actions[..|actions| - 1], setup);
      EveryScheduleIsSafe(actions[..|actions| - 1], setup);
      if Enabled(before, actions[|actions| - 1]) { StepKeepsWorld(before, actions[|actions| - 1], setup); }
    }
  }

  lemma StartIsSafe(setup: Setup)
    requires setup.Valid()
    ensures Safe(START, setup)
  {
  }

  lemma PreservesTransitive(a: World, b: World, c: World)
    requires Preserves(a, b) && Preserves(b, c)
    ensures Preserves(a, c)
  {
    hide Extends;
    forall n | n in a.branches ensures Extends(a.branches[n].progress, c.branches[n].progress) {
      ExtendsTransitive(a.branches[n].progress, b.branches[n].progress, c.branches[n].progress);
    }
  }

  /** Whatever happens after the first n steps, a prefix stopped by then is still the same archive
      and every branch published by then still has its archive, budget and frozen labels. */
  lemma {:induction false} EarlierIsPreserved(actions: seq<Action>, n: nat, setup: Setup)
    requires setup.Valid() && n <= |actions| && forall i :: 0 <= i < |actions| ==> GenuineAction(actions[i])
    ensures Preserves(Execute(START, actions[..n], setup), Execute(START, actions, setup))
  {
    hide Safe, Do, Enabled, GenuineAction, Preserves, Blank, Execute;
    if n == |actions| {
      assert actions[..n] == actions;
      PreservesItself(Execute(START, actions, setup));
    } else {
      var rest, a := actions[..|actions| - 1], actions[|actions| - 1];
      assert rest[..n] == actions[..n];
      EarlierIsPreserved(rest, n, setup);
      EveryScheduleIsSafe(rest, setup);
      LastStep(actions, setup);
      var before := Execute(START, rest, setup);
      if Enabled(before, a) { StepKeepsWorld(before, a, setup); }
      PreservesItself(before);
      PreservesTransitive(Execute(START, actions[..n], setup), before, Execute(START, actions, setup));
    }
  }

  lemma LastStep(actions: seq<Action>, setup: Setup)
    requires setup.settings.block > 0 && actions != []
    ensures var before, a := Execute(START, actions[..|actions| - 1], setup), actions[|actions| - 1];
      Execute(START, actions, setup) == if Enabled(before, a) then Do(before, a, setup) else before
  {
  }

  lemma PreservesItself(world: World)
    ensures Preserves(world, world)
  {
  }

  /** Nobody shares a branch or the prefix, and a process that holds nothing blocks nobody. */
  lemma LocksExclude(world: World, v: Worker, w: Worker, setup: Setup)
    requires setup.Valid() && Safe(world, setup)
    ensures var s, t := world.StageOf(v), world.StageOf(w);
      !s.Idle? && !t.Idle? && s.branch == t.branch ==> v == w
    ensures world.StageOf(v).Preparing? && world.StageOf(w).Preparing? ==> v == w
    ensures world.StageOf(w).Idle? ==>
      world.prefixLock != Some(w) && forall b :: b in world.branchLocks ==> world.branchLocks[b] != w
  {
  }

  /** Only the process working on a branch changes its archive, and only the process preparing the
      prefix changes the prefix; a fork adds a branch and replaces none. */
  lemma OnlyHoldersWrite(world: World, a: Action, b: Branch, setup: Setup)
    requires setup.Valid() && Safe(world, setup) && Enabled(world, a)
    ensures var after := Do(world, a, setup);
      && (b in world.branches && b in after.branches && after.branches[b] != world.branches[b] ==>
            a.RunBranch? && world.StageOf(a.worker).Working? && world.StageOf(a.worker).branch == b)
      && (b !in world.branches && b in after.branches ==> a.PublishFork? && world.branchLocks[b] == a.worker)
      && (after.prefix != world.prefix ==> world.prefixLock == Some(a.worker))
  {
    hide Grown, BranchSafe, Blank, Opened, BranchOf, Play;
  }

  /** No deadlock: a waiting process can take the prefix lock, or the holder is not itself waiting
      and each way it can finish lets the waiting process in. */
  lemma NoDeadlock(world: World, w: Worker, setup: Setup) returns (holder: Worker)
    requires setup.Valid() && Safe(world, setup) && world.StageOf(w).AwaitingPrefix?
    ensures || Enabled(world, LockPrefix(w))
            || (&& holder != w && Enabled(world, PublishFork(holder)) && Enabled(world, Release(holder))
                && Enabled(Do(world, PublishFork(holder), setup), LockPrefix(w))
                && Enabled(Do(world, Release(holder), setup), LockPrefix(w)))
  {
    hide Grown, BranchSafe, Blank, Opened, BranchOf, Play;
    holder := if world.prefixLock.Some? then world.prefixLock.value else w;
  }

  /** Enough attempts settle the prefix: unless the harness gave up on an error, it is stopped, and
      the process holding it then publishes a fork. */
  lemma PrefixWorkSuffices(world: World, w: Worker, attempts: seq<Attempt>, setup: Setup)
    requires setup.Valid() && Safe(world, setup) && Enabled(world, RunPrefix(w, attempts)) && AllGenuine(attempts)
    requires |attempts| >= 3 * setup.settings.block * (setup.settings.maxRetries + 1)
    ensures var start := Opened(world.prefix, setup.PrefixRequest());
            var after := Do(world, RunPrefix(w, attempts), setup);
            var b := world.StageOf(w).branch;
      && start.Some? && !Play(start.value, 0, attempts, setup.settings).Waiting?
      && (Play(start.value, 0, attempts, setup.settings).Returned? ==>
            && Enabled(after, PublishFork(w))
            && var published := Do(after, PublishFork(w), setup);
               b in published.branches
                 && published.branches[b].progress.budget == after.prefix.value.progress.tokens + setup.settings.block)
  {
    hide Grown, BranchSafe, Blank, Opened, BranchOf, Play, Sound, AllGenuine, Staged, Extends;
    OpenedPrefix(world, setup);
    var start := Opened(world.prefix, setup.PrefixRequest()).value;
    var h := PrefixFacts(start, setup);
    PrefixLimit(start, h, setup);
    MoreThanEnough(|attempts|, start.progress.ActiveLimit(), start.progress.tokens, 3 * setup.settings.block,
                   setup.settings.maxRetries + 1);
    EveryRunEnds(start, attempts, h, 0, setup.settings);
    RunPrefixKeeps(world, w, attempts, setup);
    if Play(start, 0, attempts, setup.settings).Returned? { PublishWhenStopped(world, w, attempts, start, h, setup); }
  }

  lemma PrefixLimit(d: Saved, h: seq<Entry>, setup: Setup)
    requires setup.Valid() && Opened(Some(d), setup.PrefixRequest()) == Some(d)
    requires Grown(FreshPrefix(setup), d, setup.settings)
    ensures d.progress.ActiveLimit() == 3 * setup.settings.block && d.progress.tokens >= 0
  {
    hide Blank, Grown, Sound;
    var block := setup.settings.block;
    FreshIsReady(setup.problem, 4 * block, Some(3 * block), block);
    ReadyIsSound(setup.PrefixRequest(), [], 0, block);
    var _ := GrownSound(FreshPrefix(setup), d, [], 0, setup.settings);
  }

  lemma MoreThanEnough(n: int, limit: int, tokens: int, blocks: int, each: nat)
    requires limit == blocks && tokens >= 0 && n >= blocks * each
    ensures n >= (limit - tokens) * each
  {
    BlockOrder(limit - tokens, blocks, each);
  }

  lemma PublishWhenStopped(world: World, w: Worker, attempts: seq<Attempt>, start: Saved, h: seq<Entry>, setup: Setup)
    requires setup.Valid() && Safe(world, setup) && Enabled(world, RunPrefix(w, attempts)) && AllGenuine(attempts)
    requires Opened(world.prefix, setup.PrefixRequest()) == Some(start)
    requires Sound(start.progress, h, 0, setup.settings.block)
    requires Safe(Do(world, RunPrefix(w, attempts), setup), setup)
    requires Play(start, 0, attempts, setup.settings).Returned?
    ensures var after := Do(world, RunPrefix(w, attempts), setup);
            var b := world.StageOf(w).branch;
      && Enabled(after, PublishFork(w)) && after.prefix.Some?
      && var published := Do(after, PublishFork(w), setup);
         b in published.branches
           && published.branches[b].progress.budget == after.prefix.value.progress.tokens + setup.settings.block
  {
    hide Grown, Blank, Opened, BranchOf, Play, Sound, AllGenuine, Extends;
    RunKeeps(start, 0, attempts, h, 0, setup.settings);
    var after := Do(world, RunPrefix(w, attempts), setup);
    OpenedPrefix(after, setup);
    BranchStarts(after.prefix.value, setup);
    forall v: Worker ensures after.StageOf(v) == world.StageOf(v) {}
  }

  /** What the steps accomplish: a process that enters resumes its branch if it has an archive and waits
      for the prefix if not; running the prefix or a branch advances its archive as the refinement run
      says, from where it was saved; a stopped prefix is forked for the branch, which is then worked
      on, and a running one is given back. */
  lemma StepsDoTheirWork(world: World, a: Action, setup: Setup)
    requires setup.Valid() && Safe(world, setup) && Enabled(world, a) && GenuineAction(a)
    ensures var after, settings := Do(world, a, setup), setup.settings;
      match a
      case Enter(w, b) =>
        after.StageOf(w)
        == if b in world.branches then Working(b, world.branches[b].progress.budget) else AwaitingPrefix(b)
      case LockPrefix(w) => after.StageOf(w) == Preparing(world.StageOf(w).branch)
      case RunPrefix(w, attempts) =>
        var start := if world.prefix.Some? then world.prefix.value else FreshPrefix(setup);
        after == world.(prefix := Some(Play(start, 0, attempts, settings).saved))
      case PublishFork(w) =>
        var b := world.StageOf(w).branch;
        if world.prefix.Some? && world.prefix.value.progress.status != Running then
          && BranchOf(world.prefix.value, setup).Some?
          && after.prefix == world.prefix
          && after.branches == world.branches[b := BranchOf(world.prefix.value, setup).value]
          && after.StageOf(w).Working? && after.StageOf(w).branch == b
        else after.StageOf(w).Idle? && after.branches == world.branches
      case RunBranch(w, attempts) =>
        var b := world.StageOf(w).branch;
        && b in world.branches
        && after == world.(branches := world.branches[b := Play(world.branches[b], 0, attempts, settings).saved])
      case Release(w) => after.StageOf(w).Idle?
  {
    hide Grown, Blank, Opened, BranchOf, Play, Extends, Locked;
    match a
    case Enter(w, b) =>
    case LockPrefix(w) =>
    case RunPrefix(w, attempts) => StartOfPrefix(world, setup);
    case PublishFork(w) =>
      StartOfPrefix(world, setup);
      OpenedPrefix(world, setup);
      if world.prefix.Some? && world.prefix.value.progress.status != Running {
        BranchStarts(world.prefix.value, setup);
      }
    case RunBranch(w, attempts) =>
      var b := world.StageOf(w).branch;
      assert BranchSafe(world.prefix, world.branches[b], setup);
      var _ := BranchFacts(world.prefix.value, world.branches[b], setup);
    case Release(w) =>
  }

  lemma StartOfPrefix(world: World, setup: Setup)
    requires setup.Valid() && Safe(world, setup)
    ensures Opened(world.prefix, setup.PrefixRequest())
         == Some(if world.prefix.Some? then world.prefix.value else FreshPrefix(setup))
    ensures FreshPrefix(setup).progress.status == Running
  {
    hide Grown, BranchSafe, Staged, Locked, Blank;
    FreshIsReady(setup.problem, 4 * setup.settings.block, Some(3 * setup.settings.block), setup.settings.block);
    if world.prefix.Some? { var _ := PrefixFacts(world.prefix.value, setup); }
  }

  // ----- labels and histories

  /** The prefix archive and its history are those of these runs from the prefix request. */
  ghost predicate PrefixFrom(prefix: Saved, runs: seq<seq<Attempt>>, h: seq<Entry>, setup: Setup)
    requires setup.settings.block > 0
  {
    && GenuineRuns(runs) && prefix == Replay(FreshPrefix(setup), runs, setup.settings)
    && h == ReplayHistory([], FreshPrefix(setup), runs, setup.settings)
  }

  /** The branch archive and its history are those of these runs from the fork of the prefix. */
  ghost predicate BranchFrom(prefix: Saved, h0: seq<Entry>, d: Saved, runs: seq<seq<Attempt>>, h: seq<Entry>,
                             setup: Setup)
    requires setup.settings.block > 0
  {
    && BranchOf(prefix, setup).Some? && GenuineRuns(runs)
    && d == Replay(BranchOf(prefix, setup).value, runs, setup.settings)
    && h == ReplayHistory(h0, BranchOf(prefix, setup).value, runs, setup.settings)
  }

  /** Each label of a stopped prefix holds the last solution the prefix completed within that many
      blocks. */
  lemma PrefixLabels(prefix: Saved, runs: seq<seq<Attempt>>, h: seq<Entry>, setup: Setup)
    requires setup.Valid() && PrefixFrom(prefix, runs, h, setup) && prefix.progress.status != Running
    ensures Stopped(prefix.progress, h, 0, setup.settings.block) && Allotted(prefix.progress, 0, setup.settings.block)
    ensures Sorted(h) && prefix.progress.solution == LastText(h)
    ensures prefix.progress.problem == setup.problem && prefix.progress.budget == 4 * setup.settings.block
    ensures prefix.progress.pauseAt == Some(3 * setup.settings.block)
    ensures 0 <= prefix.progress.tokens <= 3 * setup.settings.block
    ensures |prefix.progress.frozen| == 3
    ensures forall m :: 1 <= m <= 3 ==>
      && m in prefix.progress.frozen
      && prefix.progress.Boundary(m, setup.settings.block) == m * setup.settings.block
      && prefix.progress.frozen[m] == SolutionAt(h, m * setup.settings.block)
  {
    hide SolutionAt, Blank, Replay, ReplayHistory;
    var block, start := setup.settings.block, FreshPrefix(setup);
    FreshIsReady(setup.problem, 4 * block, Some(3 * block), block);
    ReadyIsSound(setup.PrefixRequest(), [], 0, block);
    ReplayKeeps(start, runs, [], 0, setup.settings);
    ThreeBlocks(block);
    SoundFacts(prefix.progress, h, 0, block);
    StopsComplete(prefix.progress, h, 0, block);
    PrefixHoldsCompletions(start, runs, setup.settings);
  }

  /** Each label of a branch: the prefix's three are kept, the fourth holds the last solution of the
      whole history within the branch's budget, and a stopped branch has all four. */
  lemma BranchLabels(prefix: Saved, prefixRuns: seq<seq<Attempt>>, h0: seq<Entry>, d: Saved, runs: seq<seq<Attempt>>,
                     h: seq<Entry>, setup: Setup)
    requires setup.Valid() && PrefixFrom(prefix, prefixRuns, h0, setup) && prefix.progress.status != Running
    requires BranchFrom(prefix, h0, d, runs, h, setup)
    ensures d.progress.Valid() && d.progress.budget == prefix.progress.tokens + setup.settings.block
    ensures Sorted(h) && LastTokens(h) <= d.progress.budget && d.progress.solution == LastText(h)
    ensures forall m :: 1 <= m <= 3 ==>
      && m in prefix.progress.frozen && m in d.progress.frozen
      && d.progress.frozen[m] == prefix.progress.frozen[m]
    ensures 4 in d.progress.frozen ==> d.progress.frozen[4] == SolutionAt(h, d.progress.budget)
    ensures d.progress.status != Running ==> |d.progress.frozen| == d.progress.count == 4 && 4 in d.progress.frozen
  {
    hide SolutionAt, Blank, Replay, ReplayHistory, Stopped, PrefixFrom;
    var block := setup.settings.block;
    PrefixLabels(prefix, prefixRuns, h0, setup);
    OneBlockFork(prefix, h0, 0, setup.settings);
    var b := BranchOf(prefix, setup).value;
    ReadyIsSound(b.progress, h0, 3, block);
    ReplayKeeps(b, runs, h0, 3, setup.settings);
    SoundFacts(d.progress, h, 3, block);
    if d.progress.status != Running { StopsComplete(d.progress, h, 3, block); }
    BranchLabel(d.progress, h, block);
  }

  lemma BranchLabel(p: Progress, h: seq<Entry>, block: nat)
    requires Sound(p, h, 3, block) && p.count == 4 && p.pauseAt.None?
    ensures p.Valid() && p.solution == LastText(h) && Sorted(h) && LastTokens(h) <= p.budget
    ensures 4 in p.frozen ==> p.frozen[4] == SolutionAt(h, p.budget)
    ensures |p.frozen| == 4 ==> 4 in p.frozen
  {
    SoundFacts(p, h, 3, block);
  }

  /** In every world reached, a branch archive comes from runs of a fork of the prefix, and the prefix
      from runs of its request; its labels are those of the histories of these runs, and a branch that
      has stopped has exactly four labels, as its audit requires. */
  lemma BranchesAreComplete(world: World, b: Branch, setup: Setup)
      returns (prefixRuns: seq<seq<Attempt>>, h0: seq<Entry>, runs: seq<seq<Attempt>>, h: seq<Entry>)
    requires setup.Valid() && Safe(world, setup) && b in world.branches
    ensures world.prefix.Some? && world.prefix.value.progress.status != Running
    ensures PrefixFrom(world.prefix.value, prefixRuns, h0, setup)
    ensures BranchFrom(world.prefix.value, h0, world.branches[b], runs, h, setup)
    ensures var prefix, p, block := world.prefix.value.progress, world.branches[b].progress, setup.settings.block;
      && p.Valid() && p.budget == prefix.tokens + block && Sorted(h) && p.solution == LastText(h)
      && (forall m :: 1 <= m <= 3 ==> m in p.frozen && p.frozen[m] == SolutionAt(h0, m * block))
      && (forall m :: 1 <= m <= 3 && 3 * block <= prefix.tokens ==> p.frozen[m] == SolutionAt(h, m * block))
      && (4 in p.frozen ==> p.frozen[4] == SolutionAt(h, p.budget))
      && (p.status != Running ==> |p.frozen| == p.count == 4 && 4 in p.frozen)
  {
    hide Blank, SolutionAt, Staged, Locked, Opened, BranchOf, Stopped, Replay, ReplayHistory;
    var prefix, d := world.prefix.value, world.branches[b];
    assert BranchSafe(world.prefix, d, setup);
    prefixRuns :| GenuineRuns(prefixRuns) && prefix == Replay(FreshPrefix(setup), prefixRuns, setup.settings);
    h0 := ReplayHistory([], FreshPrefix(setup), prefixRuns, setup.settings);
    runs :| GenuineRuns(runs) && d == Replay(BranchOf(prefix, setup).value, runs, setup.settings);
    h := ReplayHistory(h0, BranchOf(prefix, setup).value, runs, setup.settings);
    PrefixLabels(prefix, prefixRuns, h0, setup);
    BranchLabels(prefix, prefixRuns, h0, d, runs, h, setup);
    if 3 * setup.settings.block <= prefix.progress.tokens {
      forall m | 1 <= m <= 3 ensures d.progress.frozen[m] == SolutionAt(h, m * setup.settings.block) {
        BlockOrder(m, 3, setup.settings.block);
        SpentLabel(prefix, h0, runs, m, setup);
      }
    }
  }

  lemma SpentLabel(prefix: Saved, h0: seq<Entry>, runs: seq<seq<Attempt>>, m: int, setup: Setup)
    requires setup.Valid() && Stopped(prefix.progress, h0, 0, setup.settings.block) && BranchOf(prefix, setup).Some?
    requires GenuineRuns(runs) && 1 <= m <= |prefix.progress.frozen|
    requires prefix.progress.Boundary(m, setup.settings.block) <= prefix.progress.tokens
    ensures m in prefix.progress.frozen
    ensures prefix.progress.frozen[m]
         == SolutionAt(ReplayHistory(h0, BranchOf(prefix, setup).value, runs, setup.settings),
                       prefix.progress.Boundary(m, setup.settings.block))
  {
    hide SolutionAt, Replay, ReplayHistory, Stopped;
    SpentLabelsRead(prefix, BranchOf(prefix, setup).value, h0, 0, runs, m, setup.settings);
  }

  /** The three labels agree with the history of every branch if and only if the prefix has spent all
      three blocks; a prefix that finished early, or paused by rolling a phase back, has not. */
  lemma BranchHistoryExactly(prefix: Saved, runs: seq<seq<Attempt>>, h0: seq<Entry>, setup: Setup)
    requires setup.Valid() && PrefixFrom(prefix, runs, h0, setup) && prefix.progress.status != Running
    ensures BranchOf(prefix, setup).Some?
    ensures var branch, block := BranchOf(prefix, setup).value, setup.settings.block;
      ReadsAsBranch(prefix, branch, h0, 0, setup.settings) <==> 3 * block <= prefix.progress.tokens
  {
    hide SolutionAt, Replay, ReplayHistory, Stopped, PrefixFrom, ReadsAsBranch;
    PrefixLabels(prefix, runs, h0, setup);
    OneBlockFork(prefix, h0, 0, setup.settings);
    PrefixLabelsExactly(prefix, BranchOf(prefix, setup).value, h0, 0, setup.settings);
    FreshLabelsExactly(prefix.progress, h0, setup.settings);
  }

  // ----- the preparation of a fork, on the objects

  /** Runs the prefix unless it has stopped already; false if it is refused or does not return. */
  method FinishPrefix(source: SelfRefine.SessionManager, attempts: seq<Attempt>, setup: Setup) returns (returned: bool)
    requires source.sessionState == null && setup.settings.block > 0
    modifies source
    ensures source.sessionState == null
    ensures source.archive == PreparedPrefix(old(source.archive), attempts, setup)
    ensures var start := Opened(old(source.archive), setup.PrefixRequest());
      returned == (start.Some? && Play(start.value, 0, attempts, setup.settings).Returned?)
    ensures returned ==> source.archive.Some?
  {
    hide Play, Progress.Valid, Initial;
    var initial := setup.PrefixRequest();
    var start := Opened(source.archive, initial);
    if start.None? { return false; }
    StoppedStays(start.value, attempts, setup);
    if source.archive.Some? && source.archive.value.progress.status != Running { return true; }
    var controller := new SelfRefine.Controller(source, setup.settings);
    var request := new SelfRefine.RefinementState(initial);
    var result, _ := controller.Run(request, attempts);
    returned := result.Some? && result.value.Returned?;
  }

  /** Finishes the exclusively owned prefix and publishes the branch archive; None if the prefix
      could not be opened or was not stopped, or if the branch has an archive already. */
  method PrepareFork(source: SelfRefine.SessionManager, target: SelfRefine.SessionManager, attempts: seq<Attempt>,
                     setup: Setup)
      returns (budget: Option<int>)
    requires source != target && source.sessionState == null && setup.settings.block > 0
    modifies source, target`archive
    ensures source.sessionState == null
    ensures source.archive == PreparedPrefix(old(source.archive), attempts, setup)
    ensures target.archive == PreparedBranch(old(source.archive), old(target.archive), attempts, setup)
    ensures budget.Some? <==> target.archive != old(target.archive)
    ensures budget.Some? ==> target.archive.Some? && target.archive.value.progress.budget == budget.value
  {
    hide Play, Progress.Valid, Initial, ContinueState;
    var returned := FinishPrefix(source, attempts, setup);
    if !returned { return None; }
    var request := new SelfRefine.RefinementState(setup.PrefixRequest());
    var state := source.Open(request);
    if state == null || state.status == Running {
      source.Close();
      return None;
    }
    var allowance := state.tokens + setup.settings.block;
    var ok := source.Fork(target, Some(allowance), setup.settings.block);
    source.Close();
    if ok { ForkBudget(source.archive.value, allowance, setup.settings.block); }
    budget := if ok then Some(allowance) else None;
  }

  lemma ForkBudget(d: Saved, budget: int, block: nat)
    requires block > 0
    ensures Forked(d, Some(budget), block).Some? ==> Forked(d, Some(budget), block).value.progress.budget == budget
  {
  }

  function PreparedPrefix(prefix: Option<Saved>, attempts: seq<Attempt>, setup: Setup): Option<Saved>
    requires setup.settings.block > 0
  {
    if PrefixAfter(prefix, attempts, setup).None? then prefix else PrefixAfter(prefix, attempts, setup)
  }

  function PreparedBranch(prefix: Option<Saved>, branch: Option<Saved>, attempts: seq<Attempt>,
                          setup: Setup): Option<Saved>
    requires setup.settings.block > 0
  {
    var start := Opened(prefix, setup.PrefixRequest());
    if branch.Some? || start.None? then branch
    else
      match Play(start.value, 0, attempts, setup.settings)
      case Returned(d) =>
        if Opened(Some(d), setup.PrefixRequest()).None? || d.progress.status == Running then None
        else BranchOf(d, setup)
      case Waiting(_, _) => None
      case Raised(_) => None
  }

  lemma StoppedStays(d: Saved, attempts: seq<Attempt>, setup: Setup)
    ensures d.progress.status != Running ==> Play(d, 0, attempts, setup.settings) == Returned(d)
  {
  }

  /** The method makes exactly the protocol's two steps: run the prefix, then publish the fork. */
  lemma PreparationIsTwoSteps(world: World, w: Worker, attempts: seq<Attempt>, setup: Setup)
    requires setup.Valid() && Safe(world, setup) && Enabled(world, RunPrefix(w, attempts)) && AllGenuine(attempts)
    ensures var b, after := world.StageOf(w).branch, Do(world, RunPrefix(w, attempts), setup);
            var start := Opened(world.prefix, setup.PrefixRequest());
            var branch := PreparedBranch(world.prefix, None, attempts, setup);
      && start.Some? && Enabled(after, PublishFork(w))
      && var published := Do(after, PublishFork(w), setup);
         && after.prefix == PreparedPrefix(world.prefix, attempts, setup)
         && (Play(start.value, 0, attempts, setup.settings).Returned? ==>
               branch.Some? && b in published.branches && published.branches[b] == branch.value
                 && published.prefix == after.prefix)
         && (!Play(start.value, 0, attempts, setup.settings).Returned? ==>
               branch.None? && after.branches == world.branches)
  {
    hide Grown, BranchSafe, Blank, Opened, BranchOf, Play, Sound, AllGenuine, Extends;
    OpenedPrefix(world, setup);
    var start := Opened(world.prefix, setup.PrefixRequest()).value;
    var h := PrefixFacts(start, setup);
    RunPrefixKeeps(world, w, attempts, setup);
    var after := Do(world, RunPrefix(w, attempts), setup);
    OpenedPrefix(after, setup);
    RunKeeps(start, 0, attempts, h, 0, setup.settings);
    if Play(start, 0, attempts, setup.settings).Returned? {
      PublishWhenStopped(world, w, attempts, start, h, setup);
      BranchStarts(after.prefix.value, setup);
      assert world.StageOf(w).branch !in world.branches;
    }
  }
}
