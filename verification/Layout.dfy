/** Where the agent puts things, and which names belong to which VM id. */
module Layout {
  import opened GoStrings
  import opened GoPath
  import opened Environment

  const SOCKET_FILE: Bytes := [0x66, 0x69, 0x72, 0x65, 0x63, 0x72, 0x61, 0x63, 0x6B, 0x65, 0x72, 0x2E, 0x73, 0x6F, 0x63, 0x6B, 0x65, 0x74]  // firecracker.socket
  const LOG_FILE: Bytes := [0x66, 0x69, 0x72, 0x65, 0x63, 0x72, 0x61, 0x63, 0x6B, 0x65, 0x72, 0x2E, 0x6C, 0x6F, 0x67]  // firecracker.log
  const KERNEL_FILE: Bytes := [0x76, 0x6D, 0x6C, 0x69, 0x6E, 0x75, 0x78, 0x2E, 0x62, 0x69, 0x6E]  // vmlinux.bin
  const ROOTFS_FILE: Bytes := [0x72, 0x6F, 0x6F, 0x74, 0x66, 0x73, 0x2E, 0x65, 0x78, 0x74, 0x34]  // rootfs.ext4
  const UPPER_DIR: Bytes := [0x75, 0x70, 0x70, 0x65, 0x72]  // upper
  const WORK_DIR: Bytes := [0x77, 0x6F, 0x72, 0x6B]  // work
  const ROOT_DIR: Bytes := [0x72, 0x6F, 0x6F, 0x74]  // root
  const RUN_DIR: Bytes := [0x72, 0x75, 0x6E]  // run
  const JAILED_KERNEL_FILE: Bytes := [0x76, 0x6D, 0x6C, 0x69, 0x6E, 0x75, 0x78]  // vmlinux
  const JAILED_KERNEL_PATH: Bytes := [0x2F, 0x76, 0x6D, 0x6C, 0x69, 0x6E, 0x75, 0x78]  // /vmlinux
  const JAILED_ROOTFS_PATH: Bytes := [0x2F, 0x72, 0x6F, 0x6F, 0x74, 0x66, 0x73, 0x2E, 0x65, 0x78, 0x74, 0x34]  // /rootfs.ext4

  datatype Result<+T, +E> = Ok(value: T) | Err(error: E)

  function ErrorOf<T, E>(r: Result<T, E>): Option<E> {
    if r.Ok? then None else Some(r.error)
  }

  datatype Config = Config(
    useJailer: bool,
    useOverlay: bool,
    vmsDir: Path,
    tapPrefix: Bytes,
    kernelPath: Bytes,
    rootfsPath: Bytes,
    binaryPath: Bytes,
    bridgeName: Bytes,
    gatewayIP: string)

  function VMDir(cfg: Config, id: Bytes): Path { cfg.vmsDir.Child(id) }

  /** The directory the jailer makes for `id`; all of them share the parent vms_dir/firecracker. */
  function JailDir(cfg: Config, id: Bytes): Path { cfg.vmsDir.Child(FIRECRACKER).Child(id) }

  function Truncated(id: Bytes): Bytes { if |id| > 8 then id[..8] else id }

  function TapName(cfg: Config, id: Bytes): Bytes { cfg.tapPrefix + DASH + Truncated(id) }

  /** The ids the agent is run with: single ordinary path segments, never the shared jail base. */
  predicate OkId(cfg: Config, id: Bytes) {
    Ordinary(id) && (cfg.useJailer ==> id != FIRECRACKER)
  }

  predicate InTrees(cfg: Config, id: Bytes, p: Path) {
    Under(VMDir(cfg, id), p) || (cfg.useJailer && Under(JailDir(cfg, id), p))
  }

  predicate AboveTrees(cfg: Config, id: Bytes, p: Path) {
    Under(p, VMDir(cfg, id)) || (cfg.useJailer && Under(p, JailDir(cfg, id)))
  }

  /** From `n` to `n'` only `id`'s own trees changed, except that missing ancestors of them appeared. */
  ghost predicate Confined(cfg: Config, id: Bytes, n: set<Path>, n': set<Path>) {
    forall p :: !InTrees(cfg, id, p) ==>
      (p in n ==> p in n') && (p in n' ==> p in n || AboveTrees(cfg, id, p))
  }

  /** From `n` to `n'` nodes were only removed, and only from `id`'s own trees. */
  ghost predicate Shrunk(cfg: Config, id: Bytes, n: set<Path>, n': set<Path>) {
    n' <= n && forall p :: p in n && !InTrees(cfg, id, p) ==> p in n'
  }

  /** `p` is one of the two tree roots of `id`. */
  predicate IsRoot(cfg: Config, id: Bytes, p: Path) {
    p == VMDir(cfg, id) || (cfg.useJailer && p == JailDir(cfg, id))
  }

  /** Two TAP names agree exactly when the ids agree on their first eight bytes. */
  lemma TapNameTruncates(cfg: Config, a: Bytes, b: Bytes)
    ensures TapName(cfg, a) == TapName(cfg, b) <==> a == b || (|a| >= 8 && |b| >= 8 && a[..8] == b[..8])
  {
    var n := |cfg.tapPrefix + DASH|;
    assert TapName(cfg, a)[n..] == Truncated(a);
    assert TapName(cfg, b)[n..] == Truncated(b);
  }

  lemma UnderChild(base: Path, id: Bytes, p: Path)
    ensures Under(base.Child(id), p) <==>
      base.rooted == p.rooted && |p.segs| > |base.segs| && base.segs <= p.segs && p.segs[|base.segs|] == id
  {
    var n := |base.segs|;
    if Under(base.Child(id), p) {
      assert base.Child(id).segs[..n] == base.segs && base.Child(id).segs[n] == id;
      assert p.segs[..n + 1] == base.Child(id).segs;
      assert p.segs[..n] == p.segs[..n + 1][..n];
    }
    if |p.segs| > n && base.segs <= p.segs && p.segs[n] == id {
      assert p.segs[..n + 1] == base.segs + [id];
    }
  }

  /** Which directory trees can overlap: the VM directory of `firecracker` holds every jail. */
  lemma TreesOverlap(cfg: Config, a: Bytes, b: Bytes)
    requires a != b
    ensures forall p :: !(Under(VMDir(cfg, a), p) && Under(VMDir(cfg, b), p))
    ensures forall p :: !(Under(JailDir(cfg, a), p) && Under(JailDir(cfg, b), p))
    ensures a != FIRECRACKER ==> forall p :: !(Under(VMDir(cfg, a), p) && Under(JailDir(cfg, b), p))
    ensures Under(VMDir(cfg, a), JailDir(cfg, b)) <==> a == FIRECRACKER
  {
    var n := |cfg.vmsDir.segs|;
    var base := cfg.vmsDir.Child(FIRECRACKER);
    forall p
      ensures !(Under(VMDir(cfg, a), p) && Under(VMDir(cfg, b), p))
      ensures !(Under(JailDir(cfg, a), p) && Under(JailDir(cfg, b), p))
      ensures a != FIRECRACKER ==> !(Under(VMDir(cfg, a), p) && Under(JailDir(cfg, b), p))
    {
      UnderChild(cfg.vmsDir, a, p);
      UnderChild(cfg.vmsDir, b, p);
      UnderChild(base, a, p);
      UnderChild(base, b, p);
      if Under(JailDir(cfg, b), p) {
        assert base.segs[n] == FIRECRACKER && p.segs[n] == base.segs[n];
      }
    }
    UnderChild(cfg.vmsDir, a, JailDir(cfg, b));
    assert JailDir(cfg, b).segs[n] == FIRECRACKER;
    assert JailDir(cfg, b).segs[..n] == cfg.vmsDir.segs;
  }

  /** Nothing an operation on `a` may touch or create belongs to `b`. */
  lemma TreesApart(cfg: Config, a: Bytes, b: Bytes, p: Path)
    requires OkId(cfg, a) && OkId(cfg, b) && a != b
    requires InTrees(cfg, b, p)
    ensures !InTrees(cfg, a, p) && !AboveTrees(cfg, a, p)
  {
    TreesOverlap(cfg, a, b);
    TreesOverlap(cfg, b, a);
    var n := |cfg.vmsDir.segs|;
    var base := cfg.vmsDir.Child(FIRECRACKER);
    UnderChild(cfg.vmsDir, b, p);
    UnderChild(base, b, p);
    assert VMDir(cfg, a).segs[n] == a;
    assert JailDir(cfg, a).segs[n] == FIRECRACKER && JailDir(cfg, a).segs[n + 1] == a;
    assert base.segs[n] == FIRECRACKER;
  }

  /** Another VM's trees keep exactly what they had. */
  lemma ConfinedSparesOthers(cfg: Config, a: Bytes, b: Bytes, n: set<Path>, n': set<Path>)
    requires OkId(cfg, a) && OkId(cfg, b) && a != b
    requires Confined(cfg, a, n, n')
    ensures forall p :: InTrees(cfg, b, p) ==> (p in n <==> p in n')
  {
    forall p | InTrees(cfg, b, p) ensures p in n <==> p in n' {
      TreesApart(cfg, a, b, p);
    }
  }

  lemma ConfinedTransitive(cfg: Config, id: Bytes, n: set<Path>, m: set<Path>, k: set<Path>)
    requires Confined(cfg, id, n, m) && Confined(cfg, id, m, k)
    ensures Confined(cfg, id, n, k)
  {
  }
}
