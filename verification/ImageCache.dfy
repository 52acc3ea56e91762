/**
 The image cache entry of one digest: layers are extracted into a temporary
 directory that is renamed into place, and a marker file says the rootfs is
 complete. Pulls run concurrently and may fail or be cut off at any step; a file
 operation that had begun when its pull was cut off may still take place.
 */
module ImageCache {
  import opened Prelude

  type PullId = nat

  /** A directory with the first `layers` layers extracted, or one whose removal broke off. */
  datatype Tree = Tree(layers: nat) | Damaged

  datatype Disk = Disk(marker: bool, rootfs: Option<Tree>, tmps: map<PullId, Tree>)

  datatype Pc =
    | Checking
    | MakingTmp
    | Extracting
    | Deciding
    | EvictingMarker
    | EvictingRootfs
    | Renaming
    | Dropping
    | Marking
    | Done(ok: bool)

  /** A dropped pull takes no more steps but the file operation it was waiting for. */
  datatype Pull = Pull(force: bool, pc: Pc, dropped: bool)

  /** `layers` is the number of layers of the image. */
  datatype State = State(layers: nat, disk: Disk, pulls: map<PullId, Pull>)

  datatype Removal = Removed | Torn | Refused

  datatype Action =
    | Begin(id: PullId, force: bool)
    | Check(id: PullId)
    | MakeTmp(id: PullId, ok: bool)
    | Extract(id: PullId, ok: bool)
    | FinishExtract(id: PullId)
    | Decide(id: PullId)
    | EvictMarker(id: PullId, ok: bool)
    | EvictRootfs(id: PullId, how: Removal)
    | Rename(id: PullId, ok: bool)
    | Drop(id: PullId, ok: bool)
    | Mark(id: PullId, ok: bool)
    | Cancel(id: PullId)
    | Forget(id: PullId)
    | Crash

  predicate TmpHas(s: State, id: PullId, n: nat) {
    Lookup(s.disk.tmps, id) == Some(Tree(n))
  }

  /** Layers extracted so far by a pull that is extracting. */
  function Extracted(s: State, id: PullId): nat {
    if id in s.disk.tmps && s.disk.tmps[id].Tree? then s.disk.tmps[id].layers else 0
  }

  predicate Enabled(s: State, a: Action) {
    if a.Crash? then true
    else if a.Begin? then a.id !in s.pulls && a.id !in s.disk.tmps
    else
      a.id in s.pulls &&
      var pc, dropped := s.pulls[a.id].pc, s.pulls[a.id].dropped;
      match a
      case Check(_) => pc.Checking? && !dropped
      case MakeTmp(_, _) => pc.MakingTmp?
      case Extract(id, _) => pc.Extracting? && Extracted(s, id) < s.layers
      case FinishExtract(id) => pc.Extracting? && Extracted(s, id) == s.layers && !dropped
      case Decide(_) => pc.Deciding? && !dropped
      case EvictMarker(_, _) => pc.EvictingMarker?
      case EvictRootfs(_, _) => pc.EvictingRootfs?
      case Rename(_, _) => pc.Renaming?
      case Drop(_, _) => pc.Dropping?
      case Mark(_, _) => pc.Marking?
      case Cancel(_) => !dropped
      case Forget(_) => dropped
  }

  /** The pull is waiting for a file operation. */
  predicate AwaitsFile(pc: Pc) {
    pc.MakingTmp? || pc.Extracting? || Installing(pc)
  }

  /** A rename onto an existing directory fails. */
  predicate Renames(s: State, a: Action)
    requires Enabled(s, a)
  {
    a.Rename? && a.ok && s.disk.rootfs.None? && a.id in s.disk.tmps
  }

  function NextPc(s: State, a: Action): Pc
    requires Enabled(s, a) && !a.Crash? && !a.Begin? && !a.Cancel? && !a.Forget?
  {
    match a
    case Check(id) => if !s.pulls[id].force && s.disk.marker then Done(true) else MakingTmp
    case MakeTmp(_, ok) => if ok then Extracting else Done(false)
    case Extract(_, ok) => if ok then Extracting else Done(false)
    case FinishExtract(_) => Deciding
    case Decide(id) => if s.pulls[id].force then EvictingMarker else if s.disk.rootfs.Some? then Dropping else Renaming
    case EvictMarker(_, _) => EvictingRootfs
    case EvictRootfs(_, how) => if s.disk.rootfs.None? || how.Removed? then Renaming else Done(false)
    case Rename(_, _) => if Renames(s, a) then Marking else Done(false)
    case Drop(_, _) => Marking
    case Mark(_, ok) => Done(ok)
  }

  function NextDisk(s: State, a: Action): Disk
    requires Enabled(s, a)
  {
    var d := s.disk;
    match a
    case MakeTmp(id, ok) => if ok then d.(tmps := d.tmps[id := Tree(0)]) else d
    case Extract(id, ok) =>
      if ok then d.(tmps := d.tmps[id := Tree(Extracted(s, id) + 1)])
      else if s.pulls[id].dropped then d else d.(tmps := d.tmps - {id})
    case EvictMarker(_, ok) => d.(marker := d.marker && !ok)
    case EvictRootfs(_, how) =>
      if d.rootfs.None? || how.Refused? then d else d.(rootfs := if how.Removed? then None else Some(Damaged))
    case Rename(id, _) => if Renames(s, a) then d.(rootfs := Some(d.tmps[id]), tmps := d.tmps - {id}) else d
    case Drop(id, ok) => d.(tmps := if ok then d.tmps - {id} else d.tmps)
    case Mark(_, ok) => d.(marker := d.marker || ok)
    case _ => d
  }

  /** A pull cut off while it waits for a file operation stays until that happens or turns out never to. */
  function NextPulls(s: State, a: Action): map<PullId, Pull>
    requires Enabled(s, a)
  {
    if a.Crash? then map[]
    else if a.Begin? then s.pulls[a.id := Pull(a.force, Checking, false)]
    else if a.Cancel? && AwaitsFile(s.pulls[a.id].pc) then s.pulls[a.id := s.pulls[a.id].(dropped := true)]
    else if a.Cancel? || a.Forget? || s.pulls[a.id].dropped then s.pulls - {a.id}
    else s.pulls[a.id := s.pulls[a.id].(pc := NextPc(s, a))]
  }

  function Step(s: State, a: Action): State
    requires Enabled(s, a)
  {
    State(s.layers, NextDisk(s, a), NextPulls(s, a))
  }

  function Exec(s: State, run: seq<Action>): Option<State> {
    if run == [] then Some(s)
    else
      var before := Exec(s, run[..|run| - 1]);
      if before.Some? && Enabled(before.value, run[|run| - 1]) then Some(Step(before.value, run[|run| - 1])) else None
  }

  function Fresh(layers: nat): State {
    State(layers, Disk(false, None, map[]), map[])
  }

  // ---- the invariant ----

  predicate Installing(pc: Pc) {
    pc.EvictingMarker? || pc.EvictingRootfs? || pc.Renaming? || pc.Dropping? || pc.Marking?
  }

  /** The marker promises a rootfs that is completely extracted. */
  predicate MarkerIsTrue(s: State) {
    s.disk.marker ==> s.disk.rootfs == Some(Tree(s.layers))
  }

  predicate PullOk(s: State, id: PullId)
    requires id in s.pulls
  {
    var pull := s.pulls[id];
    && (pull.pc.Extracting? ==> id in s.disk.tmps && s.disk.tmps[id].Tree?)
    && (pull.pc.Deciding? || pull.pc.EvictingMarker? || pull.pc.EvictingRootfs? || pull.pc.Renaming? ==>
      TmpHas(s, id, s.layers))
    && (pull.pc.Dropping? || pull.pc.Marking? ==> s.disk.rootfs == Some(Tree(s.layers)))
    && (pull.pc.EvictingMarker? ==> pull.force)
    && (pull.pc.EvictingRootfs? ==> pull.force && !s.disk.marker)
  }

  ghost predicate Inv(s: State) {
    && MarkerIsTrue(s)
    && (s.disk.rootfs.Some? ==> s.disk.rootfs == Some(Tree(s.layers)))
    && (forall id <- s.pulls :: PullOk(s, id))
  }

  /**
   A forced install has the cache entry to itself, until a file operation that
   outlives its pull is over; extraction may overlap anything.
   */
  ghost predicate Exclusive(s: State) {
    forall a <- s.pulls, b <- s.pulls ::
      a != b && s.pulls[a].force && Installing(s.pulls[a].pc) ==> !Installing(s.pulls[b].pc)
  }

  /**
   What may have to hold of a run: removals of the marker work, removals of a tree do
   not break off, forced installs are alone.
   */
  datatype Rule = MarkerRemovalWorks | TreeRemovalIsWhole | ForcedInstallIsAlone

  const RULES := {MarkerRemovalWorks, TreeRemovalIsWhole, ForcedInstallIsAlone}

  /** The action, taken in this state, keeps the rules `k`. */
  ghost predicate Keeps(s: State, a: Action, k: set<Rule>) {
    && (MarkerRemovalWorks in k ==> !(a.EvictMarker? && !a.ok))
    && (TreeRemovalIsWhole in k ==> !(a.EvictRootfs? && a.how.Torn?))
    && (ForcedInstallIsAlone in k ==> Exclusive(s))
  }

  ghost predicate Orderly(s: State, run: seq<Action>, k: set<Rule>) {
    run == [] ||
    (Orderly(s, run[..|run| - 1], k) && Exec(s, run[..|run| - 1]).Some?
     && Keeps(Exec(s, run[..|run| - 1]).value, run[|run| - 1], k))
  }

  lemma OtherPullsKeep(s: State, a: Action, id: PullId)
    requires Inv(s) && Enabled(s, a) && Keeps(s, a, RULES) && id in s.pulls && id in Step(s, a).pulls
    requires a.Crash? || a.id != id
    ensures PullOk(Step(s, a), id)
  {
    assert PullOk(s, id);
    if !a.Crash? && a.id in s.pulls { assert PullOk(s, a.id); }
  }

  lemma OwnPullKeeps(s: State, a: Action)
    requires Inv(s) && Enabled(s, a) && Keeps(s, a, RULES) && !a.Crash? && a.id in Step(s, a).pulls
    ensures PullOk(Step(s, a), a.id)
  {
    if a.id in s.pulls { assert PullOk(s, a.id); }
  }

  lemma StepKeepsInv(s: State, a: Action)
    requires Inv(s) && Enabled(s, a) && Keeps(s, a, RULES)
    ensures Inv(Step(s, a))
  {
    if !a.Crash? && a.id in s.pulls { assert PullOk(s, a.id); }
    forall id | id in Step(s, a).pulls
      ensures PullOk(Step(s, a), id)
    {
      if !a.Crash? && id == a.id { OwnPullKeeps(s, a); } else { OtherPullsKeep(s, a, id); }
    }
  }

  /** In every orderly run, with failures, cut-offs and crashes anywhere, the marker tells the truth. */
  lemma {:induction false} MarkerImpliesComplete(layers: nat, run: seq<Action>)
    requires Exec(Fresh(layers), run).Some? && Orderly(Fresh(layers), run, RULES)
    ensures Inv(Exec(Fresh(layers), run).value) && Exec(Fresh(layers), run).value.layers == layers
  {
    if run != [] {
      MarkerImpliesComplete(layers, run[..|run| - 1]);
      StepKeepsInv(Exec(Fresh(layers), run[..|run| - 1]).value, run[|run| - 1]);
    }
  }

  // ---- which runs are orderly ----

  ghost predicate NoForce(s: State) {
    forall id <- s.pulls :: !s.pulls[id].force
  }

  /** Any number of concurrent non-force pulls, however they interleave. */
  lemma {:induction false} NonForcePullsAreOrderly(layers: nat, run: seq<Action>)
    requires Exec(Fresh(layers), run).Some?
    requires forall a <- run :: a.Begin? ==> !a.force
    ensures Orderly(Fresh(layers), run, RULES) && NoForce(Exec(Fresh(layers), run).value)
  {
    if run != [] {
      var front, a := run[..|run| - 1], run[|run| - 1];
      assert forall b <- front :: b in run;
      NonForcePullsAreOrderly(layers, front);
      MarkerImpliesComplete(layers, front);
      var s := Exec(Fresh(layers), front).value;
      if !a.Crash? && a.id in s.pulls { assert PullOk(s, a.id); }
    }
  }

  /** At most one pull is under way. */
  ghost predicate OneAtATime(s: State) {
    forall a <- s.pulls, b <- s.pulls :: !s.pulls[a].pc.Done? && !s.pulls[b].pc.Done? ==> a == b
  }

  ghost predicate AllDone(s: State) {
    forall id <- s.pulls :: s.pulls[id].pc.Done?
  }

  /** Every pull begins when all earlier ones are over. */
  ghost predicate Serial(s: State, run: seq<Action>) {
    run == [] ||
    (Serial(s, run[..|run| - 1]) && Exec(s, run[..|run| - 1]).Some?
     && Keeps(Exec(s, run[..|run| - 1]).value, run[|run| - 1], RULES - {ForcedInstallIsAlone})
     && (run[|run| - 1].Begin? ==> AllDone(Exec(s, run[..|run| - 1]).value)))
  }

  lemma {:induction false} SerialPullsAreOrderly(layers: nat, run: seq<Action>)
    requires Exec(Fresh(layers), run).Some? && Serial(Fresh(layers), run)
    ensures Orderly(Fresh(layers), run, RULES) && OneAtATime(Exec(Fresh(layers), run).value)
  {
    if run != [] {
      SerialPullsAreOrderly(layers, run[..|run| - 1]);
    }
  }

  /**
   Concurrent non-force pulls, with failures, cut-offs and crashes anywhere, never
   break the marker's promise.
   */
  lemma NonForcePullsAreSafe(layers: nat, run: seq<Action>)
    requires Exec(Fresh(layers), run).Some? && forall a <- run :: a.Begin? ==> !a.force
    ensures MarkerIsTrue(Exec(Fresh(layers), run).value)
  {
    NonForcePullsAreOrderly(layers, run);
    MarkerImpliesComplete(layers, run);
  }

  /** Nor do forced and other pulls run one at a time. */
  lemma SerialPullsAreSafe(layers: nat, run: seq<Action>)
    requires Exec(Fresh(layers), run).Some? && Serial(Fresh(layers), run)
    ensures MarkerIsTrue(Exec(Fresh(layers), run).value)
  {
    SerialPullsAreOrderly(layers, run);
    MarkerImpliesComplete(layers, run);
  }

  /** The only actions of a pull that can change the marker or the rootfs. */
  predicate Swaps(a: Action) {
    a.EvictMarker? || a.EvictRootfs? || a.Rename? || a.Mark?
  }

  /** A pull, forced or not, that fails or is cut off before its swap leaves the cached image as it was. */
  lemma {:induction false} FailureBeforeSwapKeepsCache(s: State, run: seq<Action>)
    requires Exec(s, run).Some? && forall a <- run :: !Swaps(a)
    ensures Exec(s, run).value.disk.marker == s.disk.marker && Exec(s, run).value.disk.rootfs == s.disk.rootfs
  {
    if run != [] {
      assert run[|run| - 1] in run && forall b <- run[..|run| - 1] :: b in run;
      FailureBeforeSwapKeepsCache(s, run[..|run| - 1]);
    }
  }

  // ---- what breaks the marker's promise ----

  ghost predicate ReachedBy(start: State, k: set<Rule>, s: State, run: seq<Action>) {
    Exec(start, run) == Some(s) && Orderly(start, run, k)
  }

  /** Some run from `start` that keeps the rules `k` leads to the state. */
  ghost predicate Reachable(start: State, k: set<Rule>, s: State) {
    exists run :: ReachedBy(start, k, s, run)
  }

  lemma Then(start: State, k: set<Rule>, s: State, a: Action)
    requires Reachable(start, k, s) && Enabled(s, a) && Keeps(s, a, k)
    ensures Reachable(start, k, Step(s, a))
  {
    var run :| ReachedBy(start, k, s, run);
    assert (run + [a])[..|run + [a]| - 1] == run;
    assert ReachedBy(start, k, Step(s, a), run + [a]);
  }

  /** A pull that is not installing leaves forced installs as alone as they were. */
  lemma StaysExclusive(base: State, s: State, id: PullId, pull: Pull)
    requires Exclusive(base) && s.pulls == base.pulls[id := pull] && !Installing(pull.pc)
    ensures Exclusive(s)
  {
  }

  /** `base` with one more pull, and that pull's directory. */
  function With(base: State, id: PullId, pull: Pull, tmp: Option<Tree>): State {
    State(
      base.layers,
      if tmp.Some? then base.disk.(tmps := base.disk.tmps[id := tmp.value]) else base.disk,
      base.pulls[id := pull])
  }

  predicate MayPull(base: State, id: PullId, force: bool) {
    id !in base.pulls && id !in base.disk.tmps && (force || !base.disk.marker)
  }

  lemma PullBegins(start: State, k: set<Rule>, base: State, id: PullId, force: bool)
    requires Reachable(start, k, base) && Exclusive(base) && MayPull(base, id, force)
    ensures Reachable(start, k, With(base, id, Pull(force, MakingTmp, false), None))
  {
    var s := With(base, id, Pull(force, Checking, false), None);
    Then(start, k, base, Begin(id, force));
    StaysExclusive(base, s, id, Pull(force, Checking, false));
    Then(start, k, s, Check(id));
    assert Step(s, Check(id)) == With(base, id, Pull(force, MakingTmp, false), None);
  }

  lemma PullMakesTmp(start: State, k: set<Rule>, base: State, id: PullId, force: bool)
    requires Reachable(start, k, base) && Exclusive(base) && MayPull(base, id, force)
    ensures Reachable(start, k, With(base, id, Pull(force, Extracting, false), Some(Tree(0))))
  {
    PullBegins(start, k, base, id, force);
    var s := With(base, id, Pull(force, MakingTmp, false), None);
    StaysExclusive(base, s, id, Pull(force, MakingTmp, false));
    Then(start, k, s, MakeTmp(id, true));
    assert Step(s, MakeTmp(id, true)) == With(base, id, Pull(force, Extracting, false), Some(Tree(0)));
  }

  lemma {:induction false} PullExtracts(start: State, k: set<Rule>, base: State, id: PullId, force: bool, n: nat)
    requires Reachable(start, k, base) && Exclusive(base) && MayPull(base, id, force) && n <= base.layers
    ensures Reachable(start, k, With(base, id, Pull(force, Extracting, false), Some(Tree(n))))
  {
    if n == 0 {
      PullMakesTmp(start, k, base, id, force);
    } else {
      PullExtracts(start, k, base, id, force, n - 1);
      var s := With(base, id, Pull(force, Extracting, false), Some(Tree(n - 1)));
      StaysExclusive(base, s, id, Pull(force, Extracting, false));
      Then(start, k, s, Extract(id, true));
      assert Step(s, Extract(id, true)) == With(base, id, Pull(force, Extracting, false), Some(Tree(n)));
    }
  }

  /** A pull can get as far as its install without getting in the way of another. */
  lemma PullIsReady(start: State, k: set<Rule>, base: State, id: PullId, force: bool)
    requires Reachable(start, k, base) && Exclusive(base) && MayPull(base, id, force)
    ensures var s := With(base, id, Pull(force, Deciding, false), Some(Tree(base.layers)));
            Reachable(start, k, s) && Exclusive(s)
  {
    PullExtracts(start, k, base, id, force, base.layers);
    var s := With(base, id, Pull(force, Extracting, false), Some(Tree(base.layers)));
    StaysExclusive(base, s, id, Pull(force, Extracting, false));
    Then(start, k, s, FinishExtract(id));
    var ready := With(base, id, Pull(force, Deciding, false), Some(Tree(base.layers)));
    assert Step(s, FinishExtract(id)) == ready;
    StaysExclusive(base, ready, id, Pull(force, Deciding, false));
  }

  function Installed(layers: nat): State {
    State(layers, Disk(true, Some(Tree(layers)), map[]), map[0 := Pull(false, Done(true), false)])
  }

  lemma InstallOnce(layers: nat, k: set<Rule>)
    ensures Reachable(Fresh(layers), k, Installed(layers))
  {
    assert ReachedBy(Fresh(layers), k, Fresh(layers), []);
    PullIsReady(Fresh(layers), k, Fresh(layers), 0, false);
    var s := With(Fresh(layers), 0, Pull(false, Deciding, false), Some(Tree(layers)));
    Then(Fresh(layers), k, s, Decide(0));
    var s1 := Step(s, Decide(0));
    Then(Fresh(layers), k, s1, Rename(0, true));
    var s2 := Step(s1, Rename(0, true));
    Then(Fresh(layers), k, s2, Mark(0, true));
    assert Step(s2, Mark(0, true)) == Installed(layers);
  }

  /** The cached image, and a forced pull about to remove its marker. */
  function Refreshing(layers: nat): State {
    State(
      layers,
      Disk(true, Some(Tree(layers)), map[1 := Tree(layers)]),
      map[0 := Pull(false, Done(true), false), 1 := Pull(true, EvictingMarker, false)])
  }

  lemma RefreshOnce(layers: nat, k: set<Rule>)
    ensures Reachable(Fresh(layers), k, Refreshing(layers))
  {
    InstallOnce(layers, k);
    PullIsReady(Fresh(layers), k, Installed(layers), 1, true);
    var s := With(Installed(layers), 1, Pull(true, Deciding, false), Some(Tree(layers)));
    Then(Fresh(layers), k, s, Decide(1));
    assert Step(s, Decide(1)) == Refreshing(layers);
  }

  /** The marker's removal is best effort: lost, it outlives the rootfs. */
  lemma LostMarkerRemoval(layers: nat) returns (s: State)
    ensures Reachable(Fresh(layers), {TreeRemovalIsWhole, ForcedInstallIsAlone}, s) && !MarkerIsTrue(s)
  {
    var k := {TreeRemovalIsWhole, ForcedInstallIsAlone};
    RefreshOnce(layers, k);
    Then(Fresh(layers), k, Refreshing(layers), EvictMarker(1, false));
    var s1 := Step(Refreshing(layers), EvictMarker(1, false));
    Then(Fresh(layers), k, s1, EvictRootfs(1, Removed));
    s := Step(s1, EvictRootfs(1, Removed));
  }

  /** The cached image with its marker gone, and a forced pull about to remove the tree. */
  function Unmarked(layers: nat, pc: Pc, rootfs: Tree): State {
    State(
      layers,
      Disk(false, Some(rootfs), map[1 := Tree(layers)]),
      map[0 := Pull(false, Done(true), false), 1 := Pull(true, pc, false)])
  }

  lemma UnmarkOnce(layers: nat, k: set<Rule>)
    ensures Reachable(Fresh(layers), k, Unmarked(layers, EvictingRootfs, Tree(layers)))
  {
    RefreshOnce(layers, k);
    Then(Fresh(layers), k, Refreshing(layers), EvictMarker(1, true));
    assert Step(Refreshing(layers), EvictMarker(1, true)) == Unmarked(layers, EvictingRootfs, Tree(layers));
  }

  lemma TearOnce(layers: nat, k: set<Rule>)
    requires TreeRemovalIsWhole !in k
    ensures Reachable(Fresh(layers), k, Unmarked(layers, Done(false), Damaged))
  {
    UnmarkOnce(layers, k);
    var whole := Unmarked(layers, EvictingRootfs, Tree(layers));
    Then(Fresh(layers), k, whole, EvictRootfs(1, Torn));
    assert Step(whole, EvictRootfs(1, Torn)) == Unmarked(layers, Done(false), Damaged);
  }

  /** A tree removal that breaks off leaves a damaged tree that a later pull takes for an installed one. */
  lemma TornRemoval(layers: nat) returns (s: State)
    ensures Reachable(Fresh(layers), {MarkerRemovalWorks, ForcedInstallIsAlone}, s) && !MarkerIsTrue(s)
  {
    var k := {MarkerRemovalWorks, ForcedInstallIsAlone};
    TearOnce(layers, k);
    s := AdoptsWhatItFinds(Fresh(layers), k, Unmarked(layers, Done(false), Damaged));
  }

  /** A non-force pull that finds a rootfs comes as far as marking it. */
  lemma PullFindsRootfs(start: State, k: set<Rule>, base: State) returns (s: State)
    requires Reachable(start, k, base) && Exclusive(base) && MayPull(base, 2, false) && base.disk.rootfs.Some?
    requires ForcedInstallIsAlone in k ==> forall id <- base.pulls :: base.pulls[id].pc.Done?
    ensures Reachable(start, k, s) && s.layers == base.layers
    ensures s.disk == base.disk && s.pulls == base.pulls[2 := Pull(false, Marking, false)]
  {
    PullIsReady(start, k, base, 2, false);
    var ready := With(base, 2, Pull(false, Deciding, false), Some(Tree(base.layers)));
    Then(start, k, ready, Decide(2));
    var s1 := Step(ready, Decide(2));
    Then(start, k, s1, Drop(2, true));
    s := Step(s1, Drop(2, true));
    assert s.disk.tmps == base.disk.tmps && s.pulls == base.pulls[2 := Pull(false, Marking, false)];
  }

  lemma AdoptsWhatItFinds(start: State, k: set<Rule>, base: State) returns (s: State)
    requires Reachable(start, k, base) && MayPull(base, 2, false) && base.disk.rootfs.Some?
    requires forall id <- base.pulls :: base.pulls[id].pc.Done?
    ensures Reachable(start, k, s) && s.disk.marker && s.disk.rootfs == base.disk.rootfs
  {
    var s1 := PullFindsRootfs(start, k, base);
    Then(start, k, s1, Mark(2, true));
    s := Step(s1, Mark(2, true));
  }

  /** A forced pull's removal, live or left behind, comes before a non-force pull marks what it found. */
  lemma RemovalOvertakesMark(start: State, k: set<Rule>, s0: State) returns (s: State)
    requires Reachable(start, k, s0) && ForcedInstallIsAlone !in k && s0.disk.rootfs.Some?
    requires 1 in s0.pulls && s0.pulls[1].pc.EvictingRootfs?
    requires 2 in s0.pulls && s0.pulls[2] == Pull(false, Marking, false)
    ensures Reachable(start, k, s) && !MarkerIsTrue(s)
  {
    Then(start, k, s0, EvictRootfs(1, Removed));
    var s1 := Step(s0, EvictRootfs(1, Removed));
    Then(start, k, s1, Mark(2, true));
    s := Step(s1, Mark(2, true));
  }

  /** A non-force pull that found the rootfs marks it after a forced pull has evicted it. */
  lemma OverlappingInstalls(layers: nat) returns (s: State)
    ensures Reachable(Fresh(layers), {MarkerRemovalWorks, TreeRemovalIsWhole}, s) && !MarkerIsTrue(s)
  {
    var k := {MarkerRemovalWorks, TreeRemovalIsWhole};
    UnmarkOnce(layers, k);
    s := PullFindsRootfs(Fresh(layers), k, Unmarked(layers, EvictingRootfs, Tree(layers)));
    s := RemovalOvertakesMark(Fresh(layers), k, s);
  }

  /** The forced pull about to remove the tree has been cut off; the removal itself may be under way. */
  function CutOff(layers: nat): State {
    Unmarked(layers, EvictingRootfs, Tree(layers)).(pulls :=
      map[0 := Pull(false, Done(true), false), 1 := Pull(true, EvictingRootfs, true)])
  }

  lemma CutOffOnce(layers: nat)
    ensures Reachable(Fresh(layers), RULES, CutOff(layers))
  {
    var whole := Unmarked(layers, EvictingRootfs, Tree(layers));
    UnmarkOnce(layers, RULES);
    Then(Fresh(layers), RULES, whole, Cancel(1));
    assert Step(whole, Cancel(1)) == CutOff(layers);
  }

  /**
   A forced pull that is cut off does not leave the entry alone: a pull begun
   when no other is under way is overtaken by the removal that lives on.
   */
  lemma RemovalOutlivesItsPull(layers: nat) returns (s: State)
    ensures Reachable(Fresh(layers), RULES, CutOff(layers))
    ensures forall id <- CutOff(layers).pulls :: CutOff(layers).pulls[id].pc.Done? || CutOff(layers).pulls[id].dropped
    ensures Reachable(CutOff(layers), {MarkerRemovalWorks, TreeRemovalIsWhole}, s) && !MarkerIsTrue(s)
  {
    CutOffOnce(layers);
    var cut, k := CutOff(layers), {MarkerRemovalWorks, TreeRemovalIsWhole};
    assert ReachedBy(cut, k, cut, []);
    s := PullFindsRootfs(cut, k, cut);
    s := RemovalOvertakesMark(cut, k, s);
  }

  lemma ThereAreThreeRules(r: Rule)
    ensures r in RULES
  {
    match r
    case MarkerRemovalWorks =>
    case TreeRemovalIsWhole =>
    case ForcedInstallIsAlone =>
  }

  lemma {:induction false} OrderlyInFewer(s: State, run: seq<Action>, k: set<Rule>, fewer: set<Rule>)
    requires Orderly(s, run, k) && fewer <= k
    ensures Orderly(s, run, fewer)
  {
    if run != [] { OrderlyInFewer(s, run[..|run| - 1], k, fewer); }
  }

  lemma ReachableInFewer(start: State, s: State, k: set<Rule>, fewer: set<Rule>)
    requires Reachable(start, k, s) && fewer <= k
    ensures Reachable(start, fewer, s)
  {
    var run :| ReachedBy(start, k, s, run);
    OrderlyInFewer(start, run, k, fewer);
    assert ReachedBy(start, fewer, s, run);
  }

  /** Runs that keep the rules `k` keep the marker's promise for images of this many layers. */
  ghost predicate Suffice(layers: nat, k: set<Rule>) {
    forall s :: Reachable(Fresh(layers), k, s) ==> MarkerIsTrue(s)
  }

  /** Exactly which rules make the marker trustworthy, for any image: all three. */
  lemma SufficeIffAllRules(layers: nat, k: set<Rule>)
    ensures Suffice(layers, k) <==> k == RULES
  {
    if k == RULES {
      forall s | Reachable(Fresh(layers), k, s)
        ensures MarkerIsTrue(s)
      {
        var run :| ReachedBy(Fresh(layers), k, s, run);
        MarkerImpliesComplete(layers, run);
      }
    } else {
      forall r | r in k
        ensures r in RULES
      {
        ThereAreThreeRules(r);
      }
      var s;
      if MarkerRemovalWorks !in k {
        s := LostMarkerRemoval(layers);
        ReachableInFewer(Fresh(layers), s, {TreeRemovalIsWhole, ForcedInstallIsAlone}, k);
      } else if TreeRemovalIsWhole !in k {
        s := TornRemoval(layers);
        ReachableInFewer(Fresh(layers), s, {MarkerRemovalWorks, ForcedInstallIsAlone}, k);
      } else {
        s := OverlappingInstalls(layers);
        ReachableInFewer(Fresh(layers), s, {MarkerRemovalWorks, TreeRemovalIsWhole}, k);
      }
      assert Reachable(Fresh(layers), k, s) && !MarkerIsTrue(s);
    }
  }

  // ---- one pull as the manager runs it ----

  /** Where a pull fails, and where it is cut off; `marker` and `drop` are removals whose failure goes unseen. */
  datatype Faults = Faults(
    tmp: bool, layer: Option<nat>, marker: bool, drop: bool, rootfs: Removal, rename: bool, mark: bool, cutAtSwap: nat)

  /** Nothing on the way of this pull fails or cuts it off. */
  predicate Unharmed(faults: Faults, layers: nat, force: bool, found: Option<Tree>) {
    && !faults.tmp && (faults.layer.Some? ==> faults.layer.value >= layers)
    && faults.cutAtSwap != 1 && faults.cutAtSwap != 4 && !faults.mark
    && (force ==> faults.cutAtSwap != 2 && faults.cutAtSwap != 3 && (found.Some? ==> faults.rootfs.Removed?))
    && (force || found.None? ==> !faults.rename)
  }

  class ImageManager {
    var marker: bool
    var rootfs: Option<Tree>
    var tmps: map<PullId, Tree>

    ghost predicate Complete(layers: nat)
      reads this
    {
      rootfs == Some(Tree(layers))
    }

    /**
     A single pull, from any state of the cache and with any faults;
     `swapping` says that the install was reached.
     */
    method PullAndUnpackWith(id: PullId, layers: nat, force: bool, faults: Faults) returns (ok: bool, swapping: bool)
      requires id !in tmps
      modifies this
      // a present marker is the whole answer of a non-force pull
      ensures !force && old(marker) ==> ok && !swapping && tmps == old(tmps)
      ensures !swapping ==> marker == old(marker) && rootfs == old(rootfs)
      // success marks the rootfs, which is complete unless a broken one was there to be adopted
      ensures ok ==> marker
      ensures ok && swapping ==> (Complete(layers) <==> force || old(rootfs).None? || old(Complete(layers)))
      // the marker's promise, if it held, breaks only on an adopted rootfs or an unseen failure
      ensures old(marker ==> Complete(layers)) && (force || old(rootfs).None? || old(Complete(layers)))
              && !(force && faults.marker)
              ==> (marker ==> Complete(layers))
      // a rootfs is the old one, a complete one, or one whose removal broke off
      ensures rootfs.None? || rootfs == old(rootfs) || Complete(layers)
              || (force && faults.rootfs.Torn? && rootfs == Some(Damaged) && !ok)
      ensures ok ==> id !in tmps || faults.drop
      // exactly the pulls nothing harms succeed
      ensures ok <==> (!force && old(marker)) || Unharmed(faults, layers, force, old(rootfs))
      // a pull that never reaches the install leaves nothing, and none touches another's directory
      ensures !swapping ==> id !in tmps
      ensures tmps - {id} == old(tmps) - {id}
    {
      ok, swapping := false, false;
      if !force && marker { return true, false; }
      if faults.tmp { return; }
      tmps := tmps[id := Tree(0)];
      var layer := 0;
      while layer < layers
        invariant layer <= layers && tmps == old(tmps)[id := Tree(layer)]
        invariant marker == old(marker) && rootfs == old(rootfs)
        invariant faults.layer.Some? ==> faults.layer.value >= layer
      {
        if faults.layer == Some(layer) {
          tmps := tmps - {id};
          return;
        }
        tmps := tmps[id := Tree(layer + 1)];
        layer := layer + 1;
      }
      swapping := true;
      if faults.cutAtSwap == 1 { return; }
      if force {
        if !faults.marker { marker := false; }
        if faults.cutAtSwap == 2 { return; }
        if rootfs.Some? {
          if faults.rootfs.Torn? { rootfs := Some(Damaged); }
          if !faults.rootfs.Removed? { return; }
          rootfs := None;
        }
        if faults.cutAtSwap == 3 || faults.rename { return; }
        rootfs, tmps := Some(tmps[id]), tmps - {id};
      } else if rootfs.Some? {
        if !faults.drop { tmps := tmps - {id}; }
      } else {
        if faults.rename { return; }
        rootfs, tmps := Some(tmps[id]), tmps - {id};
      }
      if faults.cutAtSwap == 4 || faults.mark { return; }
      marker := true;
      ok := true;
    }
  }
}
