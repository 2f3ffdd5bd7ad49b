/**
 Artifact publication and recovery with a crash between any two file-system or database steps.
 Results and processed groups are named by their digest, training batches by their step.
 A directory entry that has not been synced may be lost by a crash, and an entry whose removal has not
 been synced may come back; a commit is durable at once.
 */
module CrashConsistency {
  import opened Wrappers

  type Content = nat

  type Temp = nat

  datatype Name = ByDigest(content: Content) | ByStep(step: nat)

  /** `removed` are entries unlinked since the last sync of their directory. */
  datatype Disk = Disk(temps: map<Temp, Option<Content>>, files: map<Name, Content>, synced: set<Name>, removed: map<Name, Content>)

  datatype Phase =
    | Idle
    | Created(temp: Temp, name: Name, content: Content)
    | Written(temp: Temp, name: Name, content: Content)
    | Linked(temp: Temp, name: Name, content: Content)
    | Synced(temp: Temp, name: Name, content: Content)
    | Published(name: Name, content: Content)
    | Conflicted
    | Down
    | Recovering
    | Sweeping
    | Corrupt

  /** `rows` are the committed references with their digests; `steps` counts the training batches. */
  datatype World = World(disk: Disk, rows: map<Name, Content>, steps: nat, phase: Phase)

  // ---------------------------------------------------------------- the steps

  /** A batch goes to the next step, anything else under its digest. */
  predicate Named(w: World, name: Name, content: Content) {
    name == ByDigest(content) || name == ByStep(w.steps + 1)
  }

  function Create(w: World, t: Temp, name: Name, content: Content): World {
    w.(disk := w.disk.(temps := w.disk.temps[t := None]), phase := Created(t, name, content))
  }

  function Write(w: World): World
    requires w.phase.Created?
  {
    w.(disk := w.disk.(temps := w.disk.temps[w.phase.temp := Some(w.phase.content)]),
       phase := Written(w.phase.temp, w.phase.name, w.phase.content))
  }

  /** `os.link`; an existing file must hold the same content. */
  function Link(w: World): World
    requires w.phase.Written?
  {
    var n, c := w.phase.name, w.phase.content;
    if n !in w.disk.files then w.(disk := w.disk.(files := w.disk.files[n := c]), phase := Linked(w.phase.temp, n, c))
    else if w.disk.files[n] == c then w.(phase := Linked(w.phase.temp, n, c))
    else w.(disk := w.disk.(temps := w.disk.temps - {w.phase.temp}), phase := Conflicted)
  }

  function Sync(w: World): World
    requires w.phase.Linked?
  {
    w.(disk := w.disk.(synced := w.disk.synced + {w.phase.name}, removed := w.disk.removed - {w.phase.name}),
       phase := Synced(w.phase.temp, w.phase.name, w.phase.content))
  }

  function Unlink(w: World): World
    requires w.phase.Synced?
  {
    w.(disk := w.disk.(temps := w.disk.temps - {w.phase.temp}), phase := Published(w.phase.name, w.phase.content))
  }

  /** The row is committed, unless it is there already. */
  function Commit(w: World): World
    requires w.phase.Published?
  {
    w.(rows := w.rows[w.phase.name := w.phase.content],
       steps := if w.phase.name.ByStep? then w.phase.name.step else w.steps, phase := Idle)
  }

  /** The transaction after the publication failed, as when the lease expired meanwhile. */
  function Refuse(w: World): World
    requires w.phase.Published? && w.phase.name.ByDigest?
  {
    w.(phase := Idle)
  }

  predicate Survives(disk: Disk, after: Disk, n: Name) {
    && (n in disk.synced ==> n in disk.files && n in after.files && after.files[n] == disk.files[n])
    && (n in after.files ==>
          || (n in disk.files && after.files[n] == disk.files[n])
          || (n in disk.removed && after.files[n] == disk.removed[n]))
  }

  /** What may be found after a crash; temporary files are arbitrary. */
  ghost predicate CrashTo(w: World, to: World) {
    && to.rows == w.rows && to.steps == w.steps && to.phase == Down
    && to.disk.synced == w.disk.synced && to.disk.removed == w.disk.removed
    && forall n :: Survives(w.disk, to.disk, n)
  }

  predicate Referenced(w: World) {
    forall n :: n in w.rows ==> n in w.disk.files && w.disk.files[n] == w.rows[n]
  }

  /** Once nothing is incoming, every row's artifact is checked. */
  function Verify(w: World): World {
    w.(phase := if Referenced(w) then Sweeping else Corrupt)
  }

  function DropTemp(w: World, t: Temp): World {
    w.(disk := w.disk.(temps := w.disk.temps - {t}))
  }

  function DropFile(w: World, n: Name): World
    requires n in w.disk.files
  {
    w.(disk := w.disk.(files := w.disk.files - {n}, synced := w.disk.synced - {n}, removed := w.disk.removed[n := w.disk.files[n]]))
  }

  predicate Clean(w: World) {
    w.disk.temps == map[] && forall n :: n in w.disk.files ==> n in w.rows
  }

  ghost predicate Next(w: World, to: World) {
    || CrashTo(w, to)
    || match w.phase
       case Idle => exists t, n, c :: t !in w.disk.temps && Named(w, n, c) && to == Create(w, t, n, c)
       case Created(_, _, _) => to == Write(w)
       case Written(_, _, _) => to == Link(w)
       case Linked(_, _, _) => to == Sync(w)
       case Synced(_, _, _) => to == Unlink(w)
       case Published(_, _) => to == Commit(w) || (w.phase.name.ByDigest? && to == Refuse(w))
       case Conflicted => false
       case Down => to == w.(phase := Recovering)
       case Recovering =>
         || (exists t :: t in w.disk.temps && to == DropTemp(w, t))
         || (w.disk.temps == map[] && to == Verify(w))
       case Sweeping =>
         || (exists n :: n in w.disk.files && n !in w.rows && to == DropFile(w, n))
         || (Clean(w) && to == w.(phase := Idle))
       case Corrupt => false
  }

  // ---------------------------------------------------------------- the invariant

  /** Every committed row references a stored, synced artifact with its digest. */
  ghost predicate RowsBacked(w: World) {
    forall n :: n in w.rows ==> n in w.disk.files && w.disk.files[n] == w.rows[n] && n in w.disk.synced
  }

  ghost predicate Addressed(files: map<Name, Content>) {
    forall n :: n in files && n.ByDigest? ==> files[n] == n.content
  }

  ghost predicate StepsCounted(w: World) {
    forall k: nat :: ByStep(k) in w.rows <==> 1 <= k <= w.steps
  }

  predicate Running(p: Phase) {
    !p.Down? && !p.Recovering? && !p.Sweeping?
  }

  /** The name being published, once linked. */
  predicate Placed(p: Phase, n: Name) {
    (p.Linked? || p.Synced? || p.Published?) && p.name == n
  }

  /** While running, no batch file lies at a step that is neither committed nor being published. */
  ghost predicate NoStrayBatch(w: World) {
    Running(w.phase) ==> forall k: nat :: ByStep(k) in w.disk.files ==> k <= w.steps || Placed(w.phase, ByStep(k))
  }

  ghost predicate PhaseOk(w: World) {
    var p := w.phase;
    && !p.Conflicted? && !p.Corrupt?
    && (p.Created? || p.Written? || p.Linked? || p.Synced? || p.Published? ==> Named(w, p.name, p.content))
    && (p.Linked? || p.Synced? || p.Published? ==> p.name in w.disk.files && w.disk.files[p.name] == p.content)
    && (p.Synced? || p.Published? ==> p.name in w.disk.synced)
  }

  ghost predicate Safe(w: World) {
    && RowsBacked(w) && Addressed(w.disk.files) && Addressed(w.disk.removed) && StepsCounted(w)
    && NoStrayBatch(w) && PhaseOk(w) && (forall n :: n in w.disk.synced ==> n in w.disk.files)
  }

  lemma CrashSafe(w: World, to: World)
    requires Safe(w) && CrashTo(w, to)
    ensures Safe(to)
  {
    forall n | n in to.rows ensures n in to.disk.files && to.disk.files[n] == to.rows[n] && n in to.disk.synced {
      assert Survives(w.disk, to.disk, n);
    }
    forall n | n in to.disk.files && n.ByDigest? ensures to.disk.files[n] == n.content {
      assert Survives(w.disk, to.disk, n);
    }
    forall n | n in to.disk.synced ensures n in to.disk.files {
      assert Survives(w.disk, to.disk, n);
    }
  }

  /** The link never meets a file with other content. */
  lemma LinkSafe(w: World)
    requires Safe(w) && w.phase.Written?
    ensures Safe(Link(w)) && Link(w).phase.Linked?
  {
  }

  lemma CommitSafe(w: World)
    requires Safe(w) && w.phase.Published?
    ensures Safe(Commit(w))
  {
    var to := Commit(w);
    forall k: nat ensures ByStep(k) in to.rows <==> 1 <= k <= to.steps {
      assert ByStep(k) in w.rows <==> 1 <= k <= w.steps;
    }
  }

  lemma PublishSafe(w: World, to: World)
    requires Safe(w) && Next(w, to) && !CrashTo(w, to)
    requires w.phase.Idle? || w.phase.Created? || w.phase.Linked? || w.phase.Synced?
    ensures Safe(to)
  {
  }

  lemma RecoverSafe(w: World, to: World)
    requires Safe(w) && Next(w, to) && !CrashTo(w, to) && (w.phase.Down? || w.phase.Recovering? || w.phase.Sweeping?)
    ensures Safe(to)
    ensures to.phase.Idle? ==> to.disk.files.Keys == to.rows.Keys && to.disk.temps == map[] && to.disk.files == to.rows
  {
    if to.phase.Idle? {
      assert to.disk.files.Keys == to.rows.Keys;
      forall k: nat | ByStep(k) in to.disk.files ensures k <= to.steps {
        assert ByStep(k) in to.rows;
      }
    }
  }

  lemma NextSafe(w: World, to: World)
    requires Safe(w) && Next(w, to)
    ensures Safe(to)
  {
    hide Safe;
    hide CrashTo;
    hide Link;
    hide Commit;
    if CrashTo(w, to) {
      CrashSafe(w, to);
    } else {
      match w.phase
      case Idle => PublishSafe(w, to);
      case Created(_, _, _) => PublishSafe(w, to);
      case Written(_, _, _) => LinkSafe(w);
      case Linked(_, _, _) => PublishSafe(w, to);
      case Synced(_, _, _) => PublishSafe(w, to);
      case Published(_, _) => CommitSafe(w); if w.phase.name.ByDigest? { RefuseSafe(w); }
      case Down => RecoverSafe(w, to);
      case Recovering => RecoverSafe(w, to);
      case Sweeping => RecoverSafe(w, to);
      case Conflicted =>
      case Corrupt =>
    }
  }

  lemma RefuseSafe(w: World)
    requires Safe(w) && w.phase.Published? && w.phase.name.ByDigest?
    ensures Safe(Refuse(w))
  {
  }

  // ---------------------------------------------------------------- what the checks detect, and what a crash may do

  /** Linking fails exactly on a file with other content, which it leaves alone; otherwise the file is there. */
  lemma LinkDetects(w: World)
    requires w.phase.Written?
    ensures var n, c, to := w.phase.name, w.phase.content, Link(w);
            && (to.phase.Conflicted? <==> n in w.disk.files && w.disk.files[n] != c)
            && to.disk.files == (if to.phase.Conflicted? then w.disk.files else w.disk.files[n := c])
            && to.disk.temps == (if to.phase.Conflicted? then w.disk.temps - {w.phase.temp} else w.disk.temps)
            && to.rows == w.rows && to.steps == w.steps && to.disk.synced == w.disk.synced
  {
  }

  /** Recovery stops exactly when a row's artifact is missing or differs. */
  lemma RecoveryDetects(w: World)
    ensures Verify(w).phase == (if exists n :: n in w.rows && (n !in w.disk.files || w.disk.files[n] != w.rows[n]) then Corrupt else Sweeping)
    ensures Verify(w).disk == w.disk && Verify(w).rows == w.rows && Verify(w).steps == w.steps
  {
  }

  /** Any content can be published under its digest, and as the next batch. */
  lemma CanPublish(w: World, t: Temp, c: Content)
    requires w.phase.Idle? && t !in w.disk.temps
    ensures Next(w, Create(w, t, ByDigest(c), c)) && Next(w, Create(w, t, ByStep(w.steps + 1), c))
  {
    hide CrashTo;
    assert Named(w, ByDigest(c), c) && Named(w, ByStep(w.steps + 1), c);
  }

  /** A file linked but not synced may be lost in a crash. */
  lemma LinkMayVanish(w: World) returns (to: World)
    requires w.phase.Written? && w.phase.name !in w.disk.files && (forall n :: n in w.disk.synced ==> n in w.disk.files)
    ensures CrashTo(Link(w), to) && w.phase.name !in to.disk.files
  {
    to := w.(phase := Down);
    forall n ensures Survives(Link(w).disk, to.disk, n) {}
  }

  /** A file removed without a sync may come back in a crash. */
  lemma RemovalMayReturn(w: World, n: Name) returns (to: World)
    requires n in w.disk.files && (forall m :: m in w.disk.synced ==> m in w.disk.files)
    ensures CrashTo(DropFile(w, n), to) && n in to.disk.files && to.disk.files[n] == w.disk.files[n]
  {
    var gone := DropFile(w, n);
    to := gone.(phase := Down, disk := gone.disk.(files := w.disk.files));
    forall m ensures Survives(gone.disk, to.disk, m) {}
  }

  /** A synced file stays. */
  lemma SyncedStays(w: World, to: World)
    requires w.phase.Linked? && w.phase.name in w.disk.files && CrashTo(Sync(w), to)
    ensures w.phase.name in to.disk.files && to.disk.files[w.phase.name] == w.disk.files[w.phase.name]
  {
    assert Survives(Sync(w).disk, to.disk, w.phase.name);
  }

  // ---------------------------------------------------------------- every run

  ghost predicate IsTrace(ws: seq<World>) {
    && ws != [] && ws[0] == World(Disk(map[], map[], {}, map[]), map[], 0, Idle)
    && forall i :: 0 <= i < |ws| - 1 ==> Next(ws[i], ws[i + 1])
  }

  lemma {:induction false} TraceSafe(ws: seq<World>, i: nat)
    requires IsTrace(ws) && i < |ws|
    ensures Safe(ws[i])
  {
    hide Next;
    if i == 0 {
    } else {
      TraceSafe(ws, i - 1);
      NextSafe(ws[i - 1], ws[i]);
    }
  }

  /** At every moment, crashes included, committed rows are backed; publication never conflicts and recovery never fails. */
  lemma CrashConsistent(ws: seq<World>, i: nat)
    requires IsTrace(ws) && i < |ws|
    ensures forall n :: n in ws[i].rows ==> n in ws[i].disk.files && ws[i].disk.files[n] == ws[i].rows[n]
    ensures !ws[i].phase.Conflicted? && !ws[i].phase.Corrupt?
    ensures ws[i].phase.Idle? ==> ByStep(ws[i].steps + 1) !in ws[i].disk.files
  {
    TraceSafe(ws, i);
    hide IsTrace;
  }

  /** When recovery finishes, what is stored is exactly what is referenced, and nothing is incoming. */
  lemma RecoveryExact(ws: seq<World>, i: nat)
    requires IsTrace(ws) && i + 1 < |ws| && ws[i].phase.Sweeping? && ws[i + 1].phase.Idle?
    ensures ws[i + 1].disk.files == ws[i + 1].rows && ws[i + 1].disk.temps == map[]
  {
    TraceSafe(ws, i);
    assert Next(ws[i], ws[i + 1]);
    hide IsTrace;
    RecoverSafe(ws[i], ws[i + 1]);
  }

  // ---------------------------------------------------------------- the code between two crashes

  class ArtifactStore {
    var world: World
    ghost var trace: seq<World>

    ghost predicate Valid()
      reads this
    {
      IsTrace(trace) && trace[|trace| - 1] == world
    }

    constructor ()
      ensures Valid() && world.phase.Idle?
    {
      world := World(Disk(map[], map[], {}, map[]), map[], 0, Idle);
      trace := [world];
    }

    /** Advances to `to`, one step of the machine. */
    method Advance(to: World)
      requires Valid() && Next(world, to)
      modifies this
      ensures Valid() && world == to && trace == old(trace) + [to]
    {
      hide Next;
      trace := trace + [to];
      world := to;
    }

    /** `publish_result`, `publish_group` and `publish_batch`: every state on the way is in the trace. */
    method Publish(t: Temp, name: Name, content: Content)
      requires Valid() && world.phase.Idle? && t !in world.disk.temps && Named(world, name, content)
      modifies this
      ensures Valid() && world.phase == Published(name, content) && old(trace) <= trace
      ensures world.rows == old(world.rows) && world.steps == old(world.steps) && world.disk.temps == old(world.disk.temps)
      ensures name in world.disk.files && world.disk.files == old(world.disk.files)[name := content] && name in world.disk.synced
    {
      hide IsTrace;
      hide CrashTo;
      Advance(Create(world, t, name, content));
      Advance(Write(world));
      TraceSafeLast(trace, world);
      LinkSafe(world);
      Advance(Link(world));
      Advance(Sync(world));
      Advance(Unlink(world));
    }

    method CommitPublished()
      requires Valid() && world.phase.Published?
      modifies this
      ensures Valid() && world == Commit(old(world))
    {
      hide IsTrace;
      hide CrashTo;
      Advance(Commit(world));
    }

    method ClearIncoming()
      requires Valid() && world.phase.Recovering?
      modifies this
      ensures Valid() && world == old(world).(disk := old(world).disk.(temps := map[]))
    {
      hide IsTrace;
      hide CrashTo;
      while world.disk.temps != map[]
        invariant Valid() && world == old(world).(disk := old(world).disk.(temps := world.disk.temps))
        decreases |world.disk.temps.Keys|
      {
        assert world.disk.temps.Keys != {};
        var t :| t in world.disk.temps;
        Advance(DropTemp(world, t));
      }
    }

    method Sweep()
      requires Valid() && world.phase.Sweeping? && world.disk.temps == map[]
      modifies this
      ensures Valid() && world.phase.Sweeping? && world.rows == old(world.rows) && world.steps == old(world.steps) && Clean(world)
    {
      hide IsTrace;
      hide CrashTo;
      while exists n :: n in world.disk.files && n !in world.rows
        invariant Valid() && world.phase.Sweeping? && world.rows == old(world.rows) && world.steps == old(world.steps)
        invariant world.disk.temps == map[]
        decreases |world.disk.files.Keys|
      {
        var n :| n in world.disk.files && n !in world.rows;
        Advance(DropFile(world, n));
      }
    }

    /** The recovery loops; the error exits of the source are not reached. */
    method Recover()
      requires Valid() && world.phase.Down?
      modifies this
      ensures Valid() && world.phase.Idle? && world.rows == old(world.rows) && world.steps == old(world.steps)
      ensures world.disk.files == world.rows && world.disk.temps == map[]
    {
      hide IsTrace;
      hide CrashTo;
      hide Safe;
      Advance(world.(phase := Recovering));
      ClearIncoming();
      TraceSafeLast(trace, world);
      ReferencedSafe(world);
      Advance(Verify(world));
      Sweep();
      TraceSafeLast(trace, world);
      var idle := world.(phase := Idle);
      RecoveredFiles(world, idle);
      Advance(idle);
    }
  }

  lemma TraceSafeLast(ws: seq<World>, w: World)
    requires IsTrace(ws) && ws[|ws| - 1] == w
    ensures Safe(w)
  {
    TraceSafe(ws, |ws| - 1);
  }

  lemma ReferencedSafe(w: World)
    requires Safe(w)
    ensures Referenced(w)
  {
  }

  lemma RecoveredFiles(w: World, idle: World)
    requires Safe(w) && w.phase.Sweeping? && Clean(w) && idle == w.(phase := Idle)
    ensures Next(w, idle) && idle.disk.files == idle.rows
  {
    assert w.disk.files.Keys == w.rows.Keys;
  }
}
