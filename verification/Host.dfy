/**
 * The machine the agent runs on. Every external command is a method that may succeed or fail;
 * what it does to the machine in either case is its contract. The machine is one value, `HostState`;
 * what was asked of it and what it reported is its trace, a sequence of `Act`s.
 */
module Environment {
  import opened GoStrings
  import opened GoPath

  datatype ProcStatus =
    | Running
    | Exited     // ended by itself, and reaped
    | Signalled  // ended by the agent, and reaped

  /** The requests the agent sends to a Firecracker instance. */
  datatype ApiCall =
    | SetBootSource(kernelImagePath: Bytes, bootArgs: string)
    | SetMachineConfig(vcpuCount: int, memSizeMib: int, smt: bool)
    | AddDrive(driveId: string, pathOnHost: Bytes, isRootDevice: bool, isReadOnly: bool)
    | AddNetworkInterface(ifaceId: string, hostDevName: Bytes, guestMac: string)
    | InstanceStart
    | SendCtrlAltDel

  datatype Proc = Proc(status: ProcStatus, calls: seq<ApiCall>)

  /** The commands that acquire or release something. */
  datatype Cmd =
    | TuntapAdd(tap: Bytes)
    | LinkUp(tap: Bytes)
    | LinkMaster(tap: Bytes, bridge: Bytes)
    | LinkDelete(tap: Bytes)
    | MkdirAll(path: Path)
    | RemoveAll(path: Path)
    | Spawn(pid: nat)
    | Kill(pid: nat)
    | Term(pid: nat)

  /** One thing the agent asked of the host, with what it was told. */
  datatype Act =
    | Did(cmd: Cmd, ok: bool)
    | Missing(tap: Bytes)                            // a delete of a device that is said not to be there
    | NotStarted                                     // a process that could not be started
    | Checked(file: Bytes, ok: bool)
    | Copied(src: Bytes, dst: Path, ok: bool)
    | Overlaid(base: Bytes, image: Path, ok: bool)
    | Opened(log: Path, ok: bool)
    | Unlinked(path: Path)                           // its outcome is ignored
    | Polled(path: Path, ok: bool)
    | Probed(pid: nat, ok: bool)
    | Asked(pid: nat, call: ApiCall, ok: bool)
    | Read(time: nat)
    | Slept(millis: nat)

  /** What was done since the trace was `before`. */
  function Since(before: seq<Act>, after: seq<Act>): (t: seq<Act>)
    requires before <= after
    ensures after == before + t
  {
    after[|before|..]
  }

  lemma SinceIs(before: seq<Act>, t: seq<Act>, after: seq<Act>)
    requires after == before + t
    ensures before <= after && Since(before, after) == t
  {
  }

  lemma SinceJoins(a: seq<Act>, b: seq<Act>, c: seq<Act>)
    requires a <= b <= c
    ensures a <= c && Since(a, c) == Since(a, b) + Since(b, c)
  {
  }

  /** The same, but it reported failure. */
  function Failed(a: Act): Act {
    match a
    case Did(c, _) => Did(c, false)
    case Checked(f, _) => Checked(f, false)
    case Copied(s, d, _) => Copied(s, d, false)
    case Overlaid(b, i, _) => Overlaid(b, i, false)
    case Asked(p, c, _) => Asked(p, c, false)
    case _ => a
  }

  /** `t` is these steps, each reporting success; or fewer of them, and the last reported failure. */
  predicate Tried(steps: seq<Act>, ok: bool, t: seq<Act>) {
    if ok then t == steps
    else 0 < |t| <= |steps| && t == steps[..|t| - 1] + [Failed(steps[|t| - 1])]
  }

  /** Steps in front were done; or steps behind were not. */
  lemma TriedMore(a: seq<Act>, b: seq<Act>, ok: bool, t: seq<Act>)
    ensures Tried(b, ok, t) ==> Tried(a + b, ok, a + t)
    ensures Tried(a, false, t) ==> Tried(a + b, false, t)
  {
    if Tried(b, false, t) { assert (a + b)[..|a + t| - 1] == a + b[..|t| - 1]; }
    if Tried(a, false, t) { assert (a + b)[..|t| - 1] == a[..|t| - 1]; }
  }

  /** The first `k` of these steps were done, each reporting success. */
  predicate Along(steps: seq<Act>, k: nat, before: seq<Act>, after: seq<Act>) {
    k <= |steps| && after == before + steps[..k]
  }

  lemma SetOut(steps: seq<Act>, t: seq<Act>)
    ensures Along(steps, 0, t, t)
  {
  }

  /** One more step was tried. */
  lemma OneStep(steps: seq<Act>, k: nat, before: seq<Act>, mid: seq<Act>, ok: bool, after: seq<Act>)
    requires Along(steps, k, before, mid) && k < |steps|
    requires after == mid + [if ok then steps[k] else Failed(steps[k])]
    ensures before <= after
    ensures ok ==> Along(steps, k + 1, before, after) && (k + 1 == |steps| ==> Tried(steps, true, Since(before, after)))
    ensures !ok ==> Tried(steps, false, Since(before, after)) && |Since(before, after)| == k + 1
  {
    var t := Since(before, after);
    assert t == steps[..k] + [if ok then steps[k] else Failed(steps[k])];
  }

  /** No request was sent. */
  predicate Quiet(t: seq<Act>) {
    forall a :: a in t ==> !a.Asked?
  }

  /** No request was sent and no socket looked for. */
  predicate Plain(t: seq<Act>) {
    forall a :: a in t ==> !a.Asked? && !a.Polled?
  }

  /** The API requests among `t`. */
  function Requests(t: seq<Act>): (q: seq<Act>)
    ensures forall a :: a in q ==> a.Asked? && a in t
  {
    if t == [] then []
    else Requests(t[..|t| - 1]) + if t[|t| - 1].Asked? then [t[|t| - 1]] else []
  }

  lemma {:induction false} RequestsJoin(s: seq<Act>, t: seq<Act>)
    ensures Requests(s + t) == Requests(s) + Requests(t)
  {
    if t == [] {
      assert s + t == s;
    } else {
      assert (s + t)[..|s + t| - 1] == s + t[..|t| - 1];
      RequestsJoin(s, t[..|t| - 1]);
    }
  }

  lemma {:induction false} RequestsOf(t: seq<Act>)
    ensures Quiet(t) ==> Requests(t) == []
    ensures (forall a :: a in t ==> a.Asked?) ==> Requests(t) == t
  {
    if t != [] {
      RequestsOf(t[..|t| - 1]);
      assert t == t[..|t| - 1] + [t[|t| - 1]];
    }
  }

  lemma RequestsAtFirst(t: seq<Act>)
    requires t != [] && forall k :: 1 <= k < |t| ==> !t[k].Asked?
    ensures Requests(t) == if t[0].Asked? then [t[0]] else []
  {
    hide Requests;
    var rest := t[1..];
    RequestsOf([t[0]]);
    assert Quiet(rest) by {
      forall a | a in rest ensures !a.Asked? {
        var k :| 0 <= k < |rest| && rest[k] == a;
        assert t[k + 1] == a;
      }
    }
    RequestsOf(rest);
    RequestsJoin([t[0]], rest);
    assert t == [t[0]] + rest;
  }

  datatype HostState = HostState(
    taps: set<Bytes>,         // network devices
    stuck: set<Bytes>,        // devices that outlived a failed delete command
    procs: map<nat, Proc>,    // every process the agent ever started
    nodes: set<Path>,         // files, directories and sockets
    residue: set<Path>,       // trees whose last removal failed
    logs: set<nat>,           // processes whose log file the agent holds open
    commands: seq<Cmd>)       // those issued, in order and whatever they reported

  predicate Alive(s: HostState, pid: nat) {
    pid in s.procs && s.procs[pid].status.Running?
  }

  /** Something exists at or below `root`. */
  ghost predicate Occupied(nodes: set<Path>, root: Path) {
    exists p :: p in nodes && Under(root, p)
  }

  /** A process changed only as processes do by themselves: it may have exited. */
  predicate AgedProc(p: Proc, q: Proc) {
    p.calls == q.calls && (p.status == q.status || (p.status.Running? && q.status.Exited?))
  }

  /** The agent did nothing to the processes of `p`; `q` may have more of them. */
  ghost predicate Aged(p: map<nat, Proc>, q: map<nat, Proc>) {
    p.Keys <= q.Keys && forall k :: k in p ==> AgedProc(p[k], q[k])
  }

  /** As Aged, except for one process; but a finished process stays as it finished. */
  ghost predicate AgedBut(p: map<nat, Proc>, q: map<nat, Proc>, pid: nat) {
    && p.Keys <= q.Keys
    && (forall k :: k in p && k != pid ==> AgedProc(p[k], q[k]))
    && (pid in p && !p[pid].status.Running? ==> q[pid].status == p[pid].status)
  }

  lemma AgedAtOnce(p: map<nat, Proc>)
    ensures Aged(p, p)
  {
  }

  lemma AgedTransitive(p: map<nat, Proc>, q: map<nat, Proc>, r: map<nat, Proc>)
    requires Aged(p, q) && Aged(q, r)
    ensures Aged(p, r)
  {
    forall k | k in p ensures AgedProc(p[k], r[k]) {
      assert AgedProc(p[k], q[k]) && AgedProc(q[k], r[k]);
    }
  }

  lemma AgedButTransitive(p: map<nat, Proc>, q: map<nat, Proc>, r: map<nat, Proc>, pid: nat)
    requires AgedBut(p, q, pid) && AgedBut(q, r, pid)
    ensures AgedBut(p, r, pid)
  {
    forall k | k in p && k != pid ensures AgedProc(p[k], r[k]) {
      assert AgedProc(p[k], q[k]) && AgedProc(q[k], r[k]);
    }
  }

  class Host {
    var st: HostState
    var clock: nat             // milliseconds
    ghost var trace: seq<Act>  // everything so far
    ghost var unattached: nat  // log files open that are no process's yet

    constructor (st: HostState)
      ensures this.st == st
    {
      this.st := st;
      this.clock := 0;
      this.trace, this.unattached := [], 0;
    }

    // ------------------------------------------------------------------ network devices

    method RunTuntapAdd(tap: Bytes) returns (ok: bool)
      modifies this`st, this`trace
      ensures trace == old(trace) + [Did(TuntapAdd(tap), ok)]
      ensures ok ==> tap !in old(st.taps)
      ensures st == old(st).(taps := if ok then old(st.taps) + {tap} else old(st.taps),
                             commands := old(st.commands) + [TuntapAdd(tap)])
    {
      ok := *;
      if tap in st.taps { ok := false; }
      st := st.(taps := if ok then st.taps + {tap} else st.taps, commands := st.commands + [TuntapAdd(tap)]);
      trace := trace + [Did(TuntapAdd(tap), ok)];
    }

    method RunLinkUp(tap: Bytes) returns (ok: bool)
      modifies this`st, this`trace
      ensures trace == old(trace) + [Did(LinkUp(tap), ok)]
      ensures st == old(st).(commands := old(st.commands) + [LinkUp(tap)])
    {
      ok := *;
      st := st.(commands := st.commands + [LinkUp(tap)]);
      trace := trace + [Did(LinkUp(tap), ok)];
    }

    method RunLinkMaster(tap: Bytes, bridge: Bytes) returns (ok: bool)
      modifies this`st, this`trace
      ensures trace == old(trace) + [Did(LinkMaster(tap, bridge), ok)]
      ensures st == old(st).(commands := old(st.commands) + [LinkMaster(tap, bridge)])
    {
      ok := *;
      st := st.(commands := st.commands + [LinkMaster(tap, bridge)]);
      trace := trace + [Did(LinkMaster(tap, bridge), ok)];
    }

    /** Fails with "Cannot find device" exactly when it says so: then there is no such device. */
    method RunLinkDelete(tap: Bytes) returns (ok: bool, noDevice: bool)
      modifies this`st, this`trace
      ensures trace == old(trace) + [if noDevice then Missing(tap) else Did(LinkDelete(tap), ok)]
      ensures noDevice ==> !ok && tap !in old(st.taps)
      ensures st == old(st).(
        taps := if ok || noDevice then old(st.taps) - {tap} else old(st.taps),
        stuck := if ok || noDevice then old(st.stuck) - {tap} else old(st.stuck) + ({tap} * old(st.taps)),
        commands := old(st.commands) + [LinkDelete(tap)])
    {
      ok, noDevice := *, *;
      if ok || tap in st.taps { noDevice := false; }
      st := st.(
        taps := if ok || noDevice then st.taps - {tap} else st.taps,
        stuck := if ok || noDevice then st.stuck - {tap} else st.stuck + ({tap} * st.taps),
        commands := st.commands + [LinkDelete(tap)]);
      trace := trace + [if noDevice then Missing(tap) else Did(LinkDelete(tap), ok)];
    }

    // ---------------------------------------------------------------------- files

    /** Creates `path` and its missing ancestors; a failed call may have made some ancestors. */
    method RunMkdirAll(path: Path) returns (ok: bool)
      modifies this`st, this`trace
      ensures trace == old(trace) + [Did(MkdirAll(path), ok)]
      ensures st == old(st).(nodes := st.nodes, commands := old(st.commands) + [MkdirAll(path)])
      ensures ok ==> forall p :: p in st.nodes <==> p in old(st.nodes) || Under(p, path)
      ensures !ok ==> old(st.nodes) <= st.nodes
      ensures !ok ==> forall p :: p in st.nodes ==> p in old(st.nodes) || (Under(p, path) && p != path)
    {
      ok := *;
      var n: int := *;
      if ok { n := |path.segs| + 1; } else if n < 0 || n > |path.segs| { n := 0; }
      var made := set i | 0 <= i < n :: path.(segs := path.segs[..i]);
      ghost var before := st.nodes;
      forall p | Under(p, path) && ok
        ensures p in made
      {
        var i := |p.segs|;
        assert p.segs == path.segs[..i];
        assert 0 <= i < n && p == path.(segs := path.segs[..i]);
      }
      st := st.(nodes := st.nodes + made, commands := st.commands + [MkdirAll(path)]);
      trace := trace + [Did(MkdirAll(path), ok)];
    }

    /** Removes `root` and everything below it; a failed call may leave any of that behind. */
    method RunRemoveAll(root: Path) returns (ok: bool)
      modifies this`st, this`trace
      ensures trace == old(trace) + [Did(RemoveAll(root), ok)]
      ensures st == old(st).(
        nodes := st.nodes,
        residue := if ok then old(st.residue) - {root} else old(st.residue) + {root},
        commands := old(st.commands) + [RemoveAll(root)])
      ensures st.nodes <= old(st.nodes)
      ensures forall p :: p in old(st.nodes) && !Under(root, p) ==> p in st.nodes
      ensures ok ==> !Occupied(st.nodes, root)
    {
      ok := *;
      var left: set<Path> := *;
      if ok { left := {}; }
      var kept := set p | p in st.nodes && (Under(root, p) ==> p in left);
      st := st.(
        nodes := kept,
        residue := if ok then st.residue - {root} else st.residue + {root},
        commands := st.commands + [RemoveAll(root)]);
      trace := trace + [Did(RemoveAll(root), ok)];
    }

    /** Writes a file, for one of the operations below; a failed write may leave a partial one. */
    method WriteFile(path: Path) returns (ok: bool)
      modifies this`st
      ensures st == old(st).(nodes := st.nodes)
      ensures st.nodes == old(st.nodes) + {path} || (!ok && st.nodes == old(st.nodes))
    {
      ok := *;
      var partial: bool := *;
      if ok || partial { st := st.(nodes := st.nodes + {path}); }
    }

    /** fileutil.CopyFile. */
    method CopyFile(src: Bytes, dst: Path) returns (ok: bool)
      modifies this`st, this`trace
      ensures trace == old(trace) + [Copied(src, dst, ok)]
      ensures st == old(st).(nodes := st.nodes)
      ensures st.nodes == old(st.nodes) + {dst} || (!ok && st.nodes == old(st.nodes))
    {
      ok := WriteFile(dst);
      trace := trace + [Copied(src, dst, ok)];
    }

    /** qemu-img create, with `base` as backing file. */
    method RunCreateImage(base: Bytes, image: Path) returns (ok: bool)
      modifies this`st, this`trace
      ensures trace == old(trace) + [Overlaid(base, image, ok)]
      ensures st == old(st).(nodes := st.nodes)
      ensures st.nodes == old(st.nodes) + {image} || (!ok && st.nodes == old(st.nodes))
    {
      ok := WriteFile(image);
      trace := trace + [Overlaid(base, image, ok)];
    }

    /** os.Remove with its error ignored. */
    method RemoveFile(path: Path)
      modifies this`st, this`trace
      ensures trace == old(trace) + [Unlinked(path)]
      ensures st == old(st).(nodes := st.nodes)
      ensures st.nodes == old(st.nodes) || st.nodes == old(st.nodes) - {path}
    {
      var ok: bool := *;
      if ok { st := st.(nodes := st.nodes - {path}); }
      trace := trace + [Unlinked(path)];
    }

    /** os.Stat of a socket path: a live instance creates the socket at a time of its own choosing. */
    method StatSocket(path: Path) returns (there: bool)
      modifies this`st, this`trace
      ensures trace == old(trace) + [Polled(path, there)]
      ensures st == old(st).(nodes := st.nodes)
      ensures st.nodes == if there then old(st.nodes) + {path} else old(st.nodes)
    {
      there := *;
      if there { st := st.(nodes := st.nodes + {path}); }
      trace := trace + [Polled(path, there)];
    }

    method FileExists(path: Bytes) returns (ok: bool)
      modifies this`trace
      ensures trace == old(trace) + [Checked(path, ok)]
    {
      ok := *;
      trace := trace + [Checked(path, ok)];
    }

    // -------------------------------------------------------------------- processes

    /** Any number of processes exit by themselves. */
    method Age()
      modifies this`st
      ensures st == old(st).(procs := st.procs)
      ensures Aged(old(st.procs), st.procs) && st.procs.Keys == old(st.procs).Keys
    {
      var dying: set<nat> := *;
      st := st.(procs := map k | k in st.procs ::
        if k in dying && st.procs[k].status.Running? then st.procs[k].(status := Exited) else st.procs[k]);
    }

    method Sleep(millis: nat)
      modifies this`st, this`clock, this`trace
      ensures trace == old(trace) + [Slept(millis)]
      ensures st == old(st).(procs := st.procs)
      ensures Aged(old(st.procs), st.procs) && st.procs.Keys == old(st.procs).Keys
      ensures clock >= old(clock) + millis
    {
      Age();
      var extra: int := *;
      if extra < 0 { extra := 0; }
      clock := clock + millis + extra;
      trace := trace + [Slept(millis)];
    }

    method Now() returns (t: nat)
      modifies this`clock, this`trace
      ensures trace == old(trace) + [Read(t)]
      ensures t == clock >= old(clock)
    {
      var extra: int := *;
      if extra < 0 { extra := 0; }
      clock := clock + extra;
      t := clock;
      trace := trace + [Read(t)];
    }

    method StartProcess() returns (ok: bool, pid: nat)
      modifies this`st, this`trace
      ensures trace == old(trace) + [if ok then Did(Spawn(pid), true) else NotStarted]
      ensures ok ==> pid !in old(st.procs)
      ensures st == if ok then old(st).(procs := old(st.procs)[pid := Proc(Running, [])],
                                        commands := old(st.commands) + [Spawn(pid)]) else old(st)
    {
      ok, pid := *, *;
      if pid in st.procs { ok := false; }
      if ok { st := st.(procs := st.procs[pid := Proc(Running, [])], commands := st.commands + [Spawn(pid)]); }
      trace := trace + [if ok then Did(Spawn(pid), true) else NotStarted];
    }

    /** SIGKILL: delivered exactly when the process has not finished, and ends it. */
    method SignalKill(pid: nat) returns (ok: bool)
      requires pid in st.procs
      modifies this`st, this`trace
      ensures trace == old(trace) + [Did(Kill(pid), ok)]
      ensures st == old(st).(procs := st.procs, commands := old(st.commands) + [Kill(pid)])
      ensures st.procs.Keys == old(st.procs).Keys && AgedBut(old(st.procs), st.procs, pid)
      ensures ok ==> Alive(old(st), pid) && st.procs[pid] == old(st.procs)[pid].(status := Signalled)
      ensures !ok ==> AgedProc(old(st.procs)[pid], st.procs[pid])
      ensures !Alive(st, pid)
    {
      Age();
      ok := st.procs[pid].status.Running?;
      if ok { st := st.(procs := st.procs[pid := st.procs[pid].(status := Signalled)]); }
      st := st.(commands := st.commands + [Kill(pid)]);
      trace := trace + [Did(Kill(pid), ok)];
    }

    /** SIGTERM: delivered exactly when the process has not finished; it may obey at once, later or never. */
    method SignalTerm(pid: nat) returns (ok: bool)
      requires pid in st.procs
      modifies this`st, this`trace
      ensures trace == old(trace) + [Did(Term(pid), ok)]
      ensures st == old(st).(procs := st.procs, commands := old(st.commands) + [Term(pid)])
      ensures st.procs.Keys == old(st.procs).Keys && AgedBut(old(st.procs), st.procs, pid)
      ensures st.procs[pid].calls == old(st.procs)[pid].calls
      ensures !ok ==> !Alive(st, pid)
    {
      Age();
      ok := st.procs[pid].status.Running?;
      var obeys: bool := *;
      if ok && obeys { st := st.(procs := st.procs[pid := st.procs[pid].(status := Signalled)]); }
      st := st.(commands := st.commands + [Term(pid)]);
      trace := trace + [Did(Term(pid), ok)];
    }

    /** Signal 0. */
    method SignalZero(pid: nat) returns (ok: bool)
      requires pid in st.procs
      modifies this`st, this`trace
      ensures trace == old(trace) + [Probed(pid, ok)]
      ensures st == old(st).(procs := st.procs)
      ensures st.procs.Keys == old(st.procs).Keys && Aged(old(st.procs), st.procs)
      ensures ok == Alive(st, pid)
    {
      Age();
      ok := st.procs[pid].status.Running?;
      trace := trace + [Probed(pid, ok)];
    }

    /** One API request. A request that reports success reached a live instance; one that reports an
        error may or may not have. */
    method Put(pid: nat, call: ApiCall) returns (ok: bool)
      requires pid in st.procs
      modifies this`st, this`trace
      ensures trace == old(trace) + [Asked(pid, call, ok)]
      ensures st == old(st).(procs := st.procs)
      ensures st.procs.Keys == old(st.procs).Keys && AgedBut(old(st.procs), st.procs, pid)
      ensures st.procs[pid].calls == old(st.procs)[pid].calls + [call]
        || (!ok && st.procs[pid].calls == old(st.procs)[pid].calls)
      ensures st.procs[pid].status.Signalled? ==> old(st.procs)[pid].status.Signalled?
    {
      Age();
      ok := *;
      if st.procs[pid].status.Running? {
        var arrives: bool := *;
        if ok || arrives { st := st.(procs := st.procs[pid := st.procs[pid].(calls := st.procs[pid].calls + [call])]); }
      } else {
        ok := false;
      }
      trace := trace + [Asked(pid, call, ok)];
    }

    /** Opens a log file, creating it if need be. */
    method OpenLog(path: Path) returns (ok: bool)
      modifies this`st, this`unattached, this`trace
      ensures trace == old(trace) + [Opened(path, ok)]
      ensures st == old(st).(nodes := st.nodes)
      ensures st.nodes == old(st.nodes) + {path} || (!ok && st.nodes == old(st.nodes))
      ensures unattached == if ok then old(unattached) + 1 else old(unattached)
    {
      ok := WriteFile(path);
      if ok { unattached := unattached + 1; }
      trace := trace + [Opened(path, ok)];
    }

    /** The open log file becomes that of process `pid`. */
    method AttachLog(pid: nat)
      requires unattached > 0
      modifies this`st, this`unattached
      ensures st == old(st).(logs := old(st.logs) + {pid}) && unattached == old(unattached) - 1
    {
      st := st.(logs := st.logs + {pid});
      unattached := unattached - 1;
    }

    method CloseUnattachedLog()
      requires unattached > 0
      modifies this`unattached
      ensures unattached == old(unattached) - 1
    {
      unattached := unattached - 1;
    }

    method CloseLog(pid: nat)
      modifies this`st
      ensures st == old(st).(logs := old(st.logs) - {pid})
    {
      st := st.(logs := st.logs - {pid});
    }
  }
}
