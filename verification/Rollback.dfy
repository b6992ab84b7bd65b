/** The cleanup stack of CreateVM: what is pushed, and what running it in reverse achieves. */
module Rollback {
  import opened GoStrings
  import opened GoPath
  import opened Environment
  import opened Layout
  import opened Network
  import opened Storage
  import opened Process
  import opened Agent

  /** The closures CreateVM pushes, for the id being created. */
  datatype Cleanup =
    | CleanupStorage
    | CleanupJailAndStorage
    | DeleteTap(tap: Bytes)
    | KillStarted(process: VMProcess)

  /** The commands one cleanup issues, whatever their outcome. */
  function Commands(cfg: Config, id: Bytes, c: Cleanup): seq<Cmd> {
    match c
    case CleanupStorage => [RemoveAll(VMDir(cfg, id))]
    case CleanupJailAndStorage => [RemoveAll(JailDir(cfg, id)), RemoveAll(VMDir(cfg, id))]
    case DeleteTap(tap) => [LinkDelete(tap)]
    case KillStarted(p) => [Kill(p.pid)]
  }

  /** The commands a whole stack issues, last pushed first. */
  function UndoCommands(cfg: Config, id: Bytes, stack: seq<Cleanup>): seq<Cmd> {
    if stack == [] then []
    else Commands(cfg, id, stack[|stack| - 1]) + UndoCommands(cfg, id, stack[..|stack| - 1])
  }

  /** `c` belongs to the creation of `id`. */
  predicate About(cfg: Config, id: Bytes, c: Cleanup) {
    match c
    case CleanupStorage => true
    case CleanupJailAndStorage => cfg.useJailer
    case DeleteTap(tap) => tap == TapName(cfg, id)
    case KillStarted(p) => InTrees(cfg, id, p.socketPath)
  }

  predicate StackAbout(cfg: Config, id: Bytes, stack: seq<Cleanup>) {
    forall i :: 0 <= i < |stack| ==> About(cfg, id, stack[i])
  }

  function Kills(stack: seq<Cleanup>): set<nat> {
    set i | 0 <= i < |stack| && stack[i].KillStarted? :: stack[i].process.pid
  }

  /** What `c` is for: the resource is gone, or on record as not removable. */
  ghost predicate Undone(cfg: Config, id: Bytes, c: Cleanup, h: HostState) {
    match c
    case CleanupStorage => TreeGoneOrResidue(h, VMDir(cfg, id))
    case CleanupJailAndStorage => TreeGoneOrResidue(h, VMDir(cfg, id)) && TreeGoneOrResidue(h, JailDir(cfg, id))
    case DeleteTap(tap) => tap in h.taps ==> tap in h.stuck
    case KillStarted(p) => !Alive(h, p.pid) && (p.pid in h.logs && p.pid in h.procs ==> !h.procs[p.pid].status.Signalled?)
  }

  /** What any of the cleanups of `stack` may change. */
  ghost predicate UndoFrame(cfg: Config, id: Bytes, stack: seq<Cleanup>, h: HostState, h': HostState) {
    && UndoTaps(TapName(cfg, id), stack, h, h')
    && UndoProcs(Kills(stack), h, h')
    && UndoTrees(cfg, id, h, h')
  }

  predicate UndoTaps(tap: Bytes, stack: seq<Cleanup>, h: HostState, h': HostState) {
    (DeleteTap(tap) in stack && TapReleased(h, tap, h')) || (h'.taps == h.taps && h'.stuck == h.stuck)
  }

  ghost predicate UndoProcs(kills: set<nat>, h: HostState, h': HostState) {
    && h'.procs.Keys == h.procs.Keys
    && (forall k :: k in h.procs && k !in kills ==> AgedProc(h.procs[k], h'.procs[k]))
    && (forall k :: k in h.procs && !h.procs[k].status.Running? ==> h'.procs[k].status == h.procs[k].status)
    && h'.logs <= h.logs && h.logs - kills <= h'.logs
  }

  ghost predicate UndoTrees(cfg: Config, id: Bytes, h: HostState, h': HostState) {
    && Shrunk(cfg, id, h.nodes, h'.nodes)
    && ResidueOnlyOf(cfg, id, h, h')
    && (forall r :: r in h.residue && r !in h'.residue ==> !Occupied(h'.nodes, r))
  }

  lemma ShrunkOccupied(n: set<Path>, n': set<Path>, r: Path)
    requires n' <= n && Occupied(n', r)
    ensures Occupied(n, r)
  {
    var p :| p in n' && Under(r, p);
    assert p in n;
  }

  lemma UndoTreesTransitive(cfg: Config, id: Bytes, h: HostState, m: HostState, k: HostState)
    requires UndoTrees(cfg, id, h, m) && UndoTrees(cfg, id, m, k)
    ensures UndoTrees(cfg, id, h, k)
  {
    forall r | r in h.residue && r !in k.residue ensures !Occupied(k.nodes, r) {
      if r !in m.residue && Occupied(k.nodes, r) { ShrunkOccupied(m.nodes, k.nodes, r); }
    }
  }

  lemma UndoProcsTransitive(kills: set<nat>, h: HostState, m: HostState, k: HostState)
    requires UndoProcs(kills, h, m) && UndoProcs(kills, m, k)
    ensures UndoProcs(kills, h, k)
  {
    forall p | p in h.procs && p !in kills ensures AgedProc(h.procs[p], k.procs[p]) {
      assert AgedProc(h.procs[p], m.procs[p]) && AgedProc(m.procs[p], k.procs[p]);
    }
  }

  lemma UndoFrameTransitive(cfg: Config, id: Bytes, stack: seq<Cleanup>, h: HostState, m: HostState, k: HostState)
    requires UndoFrame(cfg, id, stack, h, m) && UndoFrame(cfg, id, stack, m, k)
    ensures UndoFrame(cfg, id, stack, h, k)
  {
    UndoTreesTransitive(cfg, id, h, m, k);
    UndoProcsTransitive(Kills(stack), h, m, k);
  }

  /** Later cleanups do not bring back what an earlier one released. */
  lemma UndoneStays(cfg: Config, id: Bytes, stack: seq<Cleanup>, c: Cleanup, h: HostState, h': HostState)
    requires About(cfg, id, c) && Undone(cfg, id, c, h) && UndoFrame(cfg, id, stack, h, h')
    ensures Undone(cfg, id, c, h')
  {
    if Occupied(h'.nodes, VMDir(cfg, id)) { ShrunkOccupied(h.nodes, h'.nodes, VMDir(cfg, id)); }
    if Occupied(h'.nodes, JailDir(cfg, id)) { ShrunkOccupied(h.nodes, h'.nodes, JailDir(cfg, id)); }
  }

  lemma TreeRemovedFrame(cfg: Config, id: Bytes, stack: seq<Cleanup>, root: Path, h: HostState, h': HostState)
    requires IsRoot(cfg, id, root) && TreeRemoved(root, h, h')
    ensures UndoFrame(cfg, id, stack, h, h') && TreeGoneOrResidue(h', root)
  {
  }

  lemma KillsContains(stack: seq<Cleanup>, p: VMProcess)
    requires KillStarted(p) in stack
    ensures p.pid in Kills(stack)
  {
    var i :| 0 <= i < |stack| && stack[i] == KillStarted(p);
    assert stack[i].KillStarted? && stack[i].process.pid == p.pid;
  }

  lemma EndEffectFrame(cfg: Config, id: Bytes, stack: seq<Cleanup>, p: VMProcess, h: HostState, h': HostState)
    requires InTrees(cfg, id, p.socketPath) && KillStarted(p) in stack && EndEffect(p, h, h')
    ensures UndoFrame(cfg, id, stack, h, h')
  {
    KillsContains(stack, p);
    forall k | k in h.procs && !h.procs[k].status.Running? ensures h'.procs[k].status == h.procs[k].status {
      if k != p.pid { assert AgedProc(h.procs[k], h'.procs[k]); }
    }
  }

  method RunCleanup(host: Host, cfg: Config, id: Bytes, c: Cleanup, ghost stack: seq<Cleanup>)
    requires About(cfg, id, c) && c in stack
    requires c.KillStarted? ==> c.process.pid in host.st.procs && LogsOk(host.st)
    modifies host`st, host`clock, host`trace
    ensures host.st.commands == old(host.st.commands) + Commands(cfg, id, c)
    ensures Undone(cfg, id, c, host.st)
    ensures UndoFrame(cfg, id, stack, old(host.st), host.st)
    ensures LogsOk(old(host.st)) ==> LogsOk(host.st)
    ensures old(host.trace) <= host.trace && Plain(Since(old(host.trace), host.trace)) && host.clock >= old(host.clock)
  {
    match c {
      case CleanupStorage =>
        var _ := Storage.CleanupVMStorage(host, cfg, id);
        TreeRemovedFrame(cfg, id, stack, VMDir(cfg, id), old(host.st), host.st);
      case CleanupJailAndStorage =>
        var _ := CleanupJail(host, cfg, id);
        ghost var mid := host.st;
        TreeRemovedFrame(cfg, id, stack, JailDir(cfg, id), old(host.st), mid);
        var _ := CleanupVMStorage(host, cfg, id);
        TreeRemovedFrame(cfg, id, stack, VMDir(cfg, id), mid, host.st);
        UndoFrameTransitive(cfg, id, stack, old(host.st), mid, host.st);
        if Occupied(host.st.nodes, JailDir(cfg, id)) { ShrunkOccupied(mid.nodes, host.st.nodes, JailDir(cfg, id)); }
      case DeleteTap(tap) =>
        var _ := DeleteTAPDevice(host, tap);
        DeletedTapFrame(cfg, id, stack, old(host.st), host.st);
      case KillStarted(p) =>
        var _ := Process.KillProcess(host, p);
        EndEffectFrame(cfg, id, stack, p, old(host.st), host.st);
        if LogsOk(old(host.st)) { LogsKept(p.pid, old(host.st), host.st); }
    }
  }

  lemma DeletedTapFrame(cfg: Config, id: Bytes, stack: seq<Cleanup>, h: HostState, h': HostState)
    requires h' == h.(taps := h'.taps, stuck := h'.stuck, commands := h'.commands)
    requires DeleteTap(TapName(cfg, id)) in stack && TapReleased(h, TapName(cfg, id), h')
    ensures UndoFrame(cfg, id, stack, h, h')
  {
  }

  /** The loop's progress: everything above `i` is undone, the commands so far and to come add up. */
  ghost predicate Progress(cfg: Config, id: Bytes, stack: seq<Cleanup>, i: int, h0: HostState, h: HostState)
    requires -1 <= i < |stack|
  {
    && h.commands + UndoCommands(cfg, id, stack[..i + 1]) == h0.commands + UndoCommands(cfg, id, stack)
    && (forall j :: i < j < |stack| ==> Undone(cfg, id, stack[j], h))
    && UndoFrame(cfg, id, stack, h0, h)
  }

  lemma ProgressStep(cfg: Config, id: Bytes, stack: seq<Cleanup>, i: nat, h0: HostState, b: HostState, h: HostState)
    requires i < |stack| && StackAbout(cfg, id, stack) && Progress(cfg, id, stack, i, h0, b)
    requires h.commands == b.commands + Commands(cfg, id, stack[i])
    requires Undone(cfg, id, stack[i], h) && UndoFrame(cfg, id, stack, b, h)
    ensures Progress(cfg, id, stack, i - 1, h0, h)
  {
    assert stack[..i + 1][..i] == stack[..i];
    UndoFrameTransitive(cfg, id, stack, h0, b, h);
    forall j | i - 1 < j < |stack| ensures Undone(cfg, id, stack[j], h) {
      if j > i { UndoneStays(cfg, id, stack, stack[j], b, h); }
    }
  }

  lemma ProgressStart(cfg: Config, id: Bytes, stack: seq<Cleanup>, h: HostState)
    ensures Progress(cfg, id, stack, |stack| - 1, h, h)
  {
    assert stack[..|stack|] == stack;
  }

  /**
   * The deferred loop of CreateVM: every cleanup runs, in reverse, whatever the others report, and
   * everything on the stack is undone at the end.
   */
  method RunCleanups(host: Host, cfg: Config, id: Bytes, cleanups: seq<Cleanup>)
    requires StackAbout(cfg, id, cleanups) && LogsOk(host.st)
    requires forall i :: 0 <= i < |cleanups| && cleanups[i].KillStarted? ==> cleanups[i].process.pid in host.st.procs
    modifies host`st, host`clock, host`trace
    ensures host.st.commands == old(host.st.commands) + UndoCommands(cfg, id, cleanups)
    ensures forall i :: 0 <= i < |cleanups| ==> Undone(cfg, id, cleanups[i], host.st)
    ensures UndoFrame(cfg, id, cleanups, old(host.st), host.st)
    ensures cleanups == [] ==> host.st == old(host.st)
    ensures LogsOk(host.st)
    ensures old(host.trace) <= host.trace && Plain(Since(old(host.trace), host.trace)) && host.clock >= old(host.clock)
  {
    ghost var h0 := host.st;
    ProgressStart(cfg, id, cleanups, h0);
    var i := |cleanups| - 1;
    while i >= 0
      invariant -1 <= i < |cleanups|
      invariant Progress(cfg, id, cleanups, i, h0, host.st)
      invariant cleanups == [] ==> host.st == h0
      invariant LogsOk(host.st)
      invariant old(host.trace) <= host.trace && Plain(Since(old(host.trace), host.trace)) && host.clock >= old(host.clock)
    {
      ghost var before, t := host.st, host.trace;
      RunCleanup(host, cfg, id, cleanups[i], cleanups);
      SinceJoins(old(host.trace), t, host.trace);
      ProgressStep(cfg, id, cleanups, i, h0, before, host.st);
      i := i - 1;
    }
    assert UndoCommands(cfg, id, cleanups[..0]) == [];
  }
}
