/**
 * Go's path/filepath on Unix, as far as the agent uses it: Clean, Join and Dir.
 * A path string means a Path, its cleaned form: whether it is rooted and its segments.
 */
module GoPath {
  import opened GoStrings

  datatype Path = Path(rooted: bool, segs: seq<Bytes>) {
    function Child(id: Bytes): Path { this.(segs := segs + [id]) }
  }

  /** `p` is `root` itself or lies below it. */
  predicate Under(root: Path, p: Path) {
    root.rooted == p.rooted && root.segs <= p.segs
  }

  function Split(s: Bytes): (parts: seq<Bytes>)
    ensures |parts| >= 1
  {
    if s == [] then [[]]
    else
      var rest := Split(s[1..]);
      if s[0] == SLASH then [[]] + rest else [[s[0]] + rest[0]] + rest[1..]
  }

  function JoinSlash(parts: seq<Bytes>): Bytes {
    if parts == [] then []
    else if |parts| == 1 then parts[0]
    else parts[0] + [SLASH] + JoinSlash(parts[1..])
  }

  /** Clean's left-to-right elimination of empty, `.` and `..` elements. */
  function Reduce(rooted: bool, done: seq<Bytes>, parts: seq<Bytes>): seq<Bytes>
    decreases |parts|
  {
    if parts == [] then done
    else if parts[0] == [] || parts[0] == DOT then Reduce(rooted, done, parts[1..])
    else if parts[0] == DOTDOT then
      if done != [] && done[|done| - 1] != DOTDOT then Reduce(rooted, done[..|done| - 1], parts[1..])
      else if rooted then Reduce(rooted, done, parts[1..])
      else Reduce(rooted, done + [DOTDOT], parts[1..])
    else Reduce(rooted, done + [parts[0]], parts[1..])
  }

  predicate Rooted(s: Bytes) { s != [] && s[0] == SLASH }

  function Parse(s: Bytes): Path {
    Path(Rooted(s), Reduce(Rooted(s), [], Split(s)))
  }

  function Render(p: Path): Bytes {
    if p.rooted then [SLASH] + JoinSlash(p.segs)
    else if p.segs == [] then DOT
    else JoinSlash(p.segs)
  }

  function Clean(s: Bytes): Bytes { Render(Parse(s)) }

  function Join(elems: seq<Bytes>): Bytes {
    if elems == [] then []
    else if elems[0] == [] then Join(elems[1..])
    else Clean(JoinSlash(elems))
  }

  function UpToLastSlash(s: Bytes): Bytes {
    if s == [] || s[|s| - 1] == SLASH then s else UpToLastSlash(s[..|s| - 1])
  }

  function Dir(s: Bytes): Bytes { Clean(UpToLastSlash(s)) }

  // ---------------------------------------------------------------- normal forms

  predicate NoSlash(parts: seq<Bytes>) {
    forall i :: 0 <= i < |parts| ==> SLASH !in parts[i]
  }

  /** What Clean leaves: no empty or `.` element, and `..` only in front of a relative path. */
  predicate Normal(p: Path) {
    && NoSlash(p.segs)
    && (forall i :: 0 <= i < |p.segs| ==> p.segs[i] != [] && p.segs[i] != DOT)
    && (forall i :: 0 <= i < |p.segs| && p.segs[i] == DOTDOT ==>
          !p.rooted && (i == 0 || p.segs[i - 1] == DOTDOT))
  }

  lemma {:induction false} SplitNoSlash(s: Bytes)
    ensures NoSlash(Split(s))
  {
    if s != [] { SplitNoSlash(s[1..]); }
  }

  lemma {:induction false} SplitConcat(a: Bytes, b: Bytes)
    ensures Split(a + [SLASH] + b) == Split(a) + Split(b)
  {
    var s := a + [SLASH] + b;
    if a == [] {
      assert s[1..] == b;
    } else {
      assert s[1..] == a[1..] + [SLASH] + b;
      SplitConcat(a[1..], b);
    }
  }

  lemma {:induction false} SplitPlain(s: Bytes)
    requires SLASH !in s
    ensures Split(s) == [s]
  {
    if s != [] {
      SplitPlain(s[1..]);
      assert [s[0]] + s[1..] == s;
    }
  }

  lemma {:induction false} SplitJoin(parts: seq<Bytes>)
    requires parts != [] && NoSlash(parts)
    ensures Split(JoinSlash(parts)) == parts
  {
    SplitPlain(parts[0]);
    if |parts| > 1 {
      SplitConcat(parts[0], JoinSlash(parts[1..]));
      SplitJoin(parts[1..]);
    }
  }

  lemma {:induction false} ReduceAppend(r: bool, done: seq<Bytes>, p: seq<Bytes>, q: seq<Bytes>)
    ensures Reduce(r, done, p + q) == Reduce(r, Reduce(r, done, p), q)
    decreases |p|
  {
    if p == [] {
      assert p + q == q;
    } else {
      assert (p + q)[1..] == p[1..] + q;
      if p[0] == [] || p[0] == DOT {
        ReduceAppend(r, done, p[1..], q);
      } else if p[0] == DOTDOT {
        if done != [] && done[|done| - 1] != DOTDOT {
          ReduceAppend(r, done[..|done| - 1], p[1..], q);
        } else if r {
          ReduceAppend(r, done, p[1..], q);
        } else {
          ReduceAppend(r, done + [DOTDOT], p[1..], q);
        }
      } else {
        ReduceAppend(r, done + [p[0]], p[1..], q);
      }
    }
  }

  lemma {:induction false} ReduceIsNormal(r: bool, done: seq<Bytes>, parts: seq<Bytes>)
    requires Normal(Path(r, done)) && NoSlash(parts)
    ensures Normal(Path(r, Reduce(r, done, parts)))
    decreases |parts|
  {
    if parts == [] {
    } else if parts[0] == [] || parts[0] == DOT {
      ReduceIsNormal(r, done, parts[1..]);
    } else if parts[0] == DOTDOT {
      if done != [] && done[|done| - 1] != DOTDOT {
        ReduceIsNormal(r, done[..|done| - 1], parts[1..]);
      } else if r {
        ReduceIsNormal(r, done, parts[1..]);
      } else {
        ReduceIsNormal(r, done + [DOTDOT], parts[1..]);
      }
    } else {
      ReduceIsNormal(r, done + [parts[0]], parts[1..]);
    }
  }

  lemma {:induction false} ReduceNormal(r: bool, done: seq<Bytes>, segs: seq<Bytes>)
    requires Normal(Path(r, done + segs))
    ensures Reduce(r, done, segs) == done + segs
    decreases |segs|
  {
    if segs == [] {
      assert done + segs == done;
    } else {
      var k := |done|;
      assert (done + segs)[k] == segs[0];
      assert k > 0 ==> (done + segs)[k - 1] == done[k - 1];
      assert (done + [segs[0]]) + segs[1..] == done + segs;
      ReduceNormal(r, done + [segs[0]], segs[1..]);
    }
  }

  lemma {:induction false} ReduceOrdinary(r: bool, done: seq<Bytes>, segs: seq<Bytes>)
    requires forall i :: 0 <= i < |segs| ==> Ordinary(segs[i])
    ensures Reduce(r, done, segs) == done + segs
    decreases |segs|
  {
    if segs == [] {
      assert done + segs == done;
    } else {
      assert (done + [segs[0]]) + segs[1..] == done + segs;
      ReduceOrdinary(r, done + [segs[0]], segs[1..]);
    }
  }

  lemma ParseIsNormal(s: Bytes)
    ensures Normal(Parse(s))
  {
    SplitNoSlash(s);
    ReduceIsNormal(Rooted(s), [], Split(s));
  }

  /** `..` takes back the ordinary segment before it. */
  lemma DotDotTakesBack(base: Bytes, seg: Bytes)
    requires base != [] && Ordinary(seg)
    ensures Parse(base + [SLASH] + (seg + [SLASH] + [0x2E, 0x2E])) == Parse(base)
  {
    SplitPlain(seg);
    SplitPlain(DOTDOT);
    SplitConcat(seg, DOTDOT);
    SplitConcat(base, seg + [SLASH] + DOTDOT);
    hide Split;
    var r, segs := Rooted(base), Parse(base).segs;
    ReduceAppend(r, [], Split(base), [seg] + [DOTDOT]);
    ReduceAppend(r, segs, [seg], [DOTDOT]);
    assert Reduce(r, segs, [seg]) == segs + [seg] by { ReduceOrdinary(r, segs, [seg]); }
    assert Reduce(r, segs + [seg], [DOTDOT]) == segs by { assert (segs + [seg])[..|segs|] == segs; }
  }

  /** The root is its own parent. */
  lemma DotDotAtTheRoot()
    ensures Parse([SLASH] + [0x2E, 0x2E]) == Path(true, [])
  {
    SplitPlain([]);
    SplitPlain(DOTDOT);
    SplitConcat([], DOTDOT);
    hide Split;
    assert [] + [SLASH] + DOTDOT == [SLASH] + DOTDOT;
    ReduceAppend(true, [], [[]], [DOTDOT]);
  }

  /** In front of a relative path `..` stays. */
  lemma DotDotInFront(base: Bytes)
    requires base != [] && Parse(base) == Path(false, [])
    ensures Parse(base + [SLASH] + [0x2E, 0x2E]) == Path(false, [[0x2E, 0x2E]])
  {
    SplitPlain(DOTDOT);
    SplitConcat(base, DOTDOT);
    hide Split;
    ReduceAppend(false, [], Split(base), [DOTDOT]);
  }

  lemma RenderFirst(segs: seq<Bytes>)
    requires segs != [] && segs[0] != []
    ensures JoinSlash(segs) != [] && JoinSlash(segs)[0] == segs[0][0]
  {
  }

  /** Rendering loses nothing: two different cleaned paths are two different strings. */
  lemma ParseRender(p: Path)
    requires Normal(p)
    ensures Parse(Render(p)) == p
  {
    var s := Render(p);
    if p.rooted {
      assert s == [] + [SLASH] + JoinSlash(p.segs);
      SplitConcat([], JoinSlash(p.segs));
      assert Split([]) == [[]];
      if p.segs == [] {
        assert Split(s) == [[]] + [[]];
        ReduceAppend(true, [], [[]], [[]]);
      } else {
        SplitJoin(p.segs);
        assert Split(s)[1..] == p.segs;
        ReduceNormal(true, [], p.segs);
      }
    } else if p.segs == [] {
      SplitPlain(DOT);
    } else {
      RenderFirst(p.segs);
      SplitJoin(p.segs);
      assert SLASH !in p.segs[0];
      ReduceNormal(false, [], p.segs);
    }
  }

  // ------------------------------------------------- what Join and Dir mean on cleaned paths

  lemma {:induction false} NormalAppend(p: Path, segs: seq<Bytes>)
    requires Normal(p) && forall i :: 0 <= i < |segs| ==> Ordinary(segs[i])
    ensures Normal(Path(p.rooted, p.segs + segs))
    decreases |segs|
  {
    if segs == [] {
      assert p.segs + segs == p.segs;
    } else {
      NormalAppend(p.Child(segs[0]), segs[1..]);
      assert (p.segs + [segs[0]]) + segs[1..] == p.segs + segs;
    }
  }

  lemma ParseAppend(base: Bytes, segs: seq<Bytes>)
    requires base != []
    requires segs != [] && forall i :: 0 <= i < |segs| ==> Ordinary(segs[i])
    ensures Parse(base + [SLASH] + JoinSlash(segs)) == Path(Parse(base).rooted, Parse(base).segs + segs)
  {
    SplitJoin(segs);
    SplitConcat(base, JoinSlash(segs));
    ReduceAppend(Rooted(base), [], Split(base), segs);
    ReduceOrdinary(Rooted(base), Parse(base).segs, segs);
  }

  lemma ParseSegments(segs: seq<Bytes>)
    requires segs != [] && forall i :: 0 <= i < |segs| ==> Ordinary(segs[i])
    ensures JoinSlash(segs) != [] && Parse(JoinSlash(segs)) == Path(false, segs)
  {
    SplitJoin(segs);
    RenderFirst(segs);
    assert SLASH !in segs[0];
    ReduceOrdinary(false, [], segs);
    assert [] + segs == segs;
  }

  lemma JoinSlashOnto(base: Bytes, segs: seq<Bytes>)
    requires segs != []
    ensures JoinSlash([base] + segs) == base + [SLASH] + JoinSlash(segs)
  {
    assert ([base] + segs)[1..] == segs;
  }

  lemma ParseNothing()
    ensures Parse([]) == Path(false, [])
  {
  }

  /** Joining ordinary segments to any base string appends them to the cleaned base. */
  lemma JoinOrdinary(base: Bytes, segs: seq<Bytes>)
    requires segs != [] && forall i :: 0 <= i < |segs| ==> Ordinary(segs[i])
    ensures Join([base] + segs) == Render(Path(Parse(base).rooted, Parse(base).segs + segs))
    ensures Normal(Path(Parse(base).rooted, Parse(base).segs + segs))
  {
    hide Parse, Render, Normal, JoinSlash;
    ParseIsNormal(base);
    NormalAppend(Parse(base), segs);
    var elems := [base] + segs;
    assert elems[1..] == segs;
    if base == [] {
      ParseSegments(segs);
      ParseNothing();
      assert [] + segs == segs && segs[0] != [];
    } else {
      ParseAppend(base, segs);
      JoinSlashOnto(base, segs);
    }
  }

  lemma {:induction false} UpToLastSlashAppend(a: Bytes, id: Bytes)
    requires SLASH !in id && (a == [] || a[|a| - 1] == SLASH)
    ensures UpToLastSlash(a + id) == a
    decreases |id|
  {
    if id == [] {
      assert a + id == a;
    } else {
      var s := a + id;
      assert s[|s| - 1] == id[|id| - 1];
      assert s[..|s| - 1] == a + id[..|id| - 1];
      UpToLastSlashAppend(a, id[..|id| - 1]);
    }
  }

  lemma {:induction false} JoinSlashAppend(segs: seq<Bytes>, id: Bytes)
    requires segs != []
    ensures JoinSlash(segs + [id]) == JoinSlash(segs) + [SLASH] + id
    decreases |segs|
  {
    var t := segs + [id];
    assert t[1..] == segs[1..] + [id];
    if |segs| > 1 {
      JoinSlashAppend(segs[1..], id);
    } else {
      assert t[1..] == [id];
    }
  }

  /** A trailing slash does not change what a nonempty path string means. */
  lemma ParseTrailingSlash(s: Bytes)
    requires s != []
    ensures Parse(s + [SLASH]) == Parse(s)
  {
    assert s + [SLASH] == s + [SLASH] + [];
    SplitConcat(s, []);
    ReduceAppend(Rooted(s), [], Split(s), [[]]);
  }

  /** What precedes the last segment in a rendered child. */
  function Prefix(p: Path): Bytes {
    if p.segs == [] then (if p.rooted then [SLASH] else []) else Render(p) + [SLASH]
  }

  lemma RenderChild(p: Path, id: Bytes)
    ensures Render(p.Child(id)) == Prefix(p) + id
  {
    if p.segs == [] {
      assert p.segs + [id] == [id];
    } else {
      JoinSlashAppend(p.segs, id);
    }
  }

  lemma ParsePrefix(p: Path)
    requires Normal(p)
    ensures Parse(Prefix(p)) == p
  {
    ParseRender(p);
    if p.segs != [] {
      if !p.rooted { RenderFirst(p.segs); }
      ParseTrailingSlash(Render(p));
    } else if p.rooted {
      assert Prefix(p) == Render(p);
    }
  }

  /** The parent of a child is the cleaned directory it was put in. */
  lemma DirOfChild(p: Path, id: Bytes)
    requires Normal(p) && Ordinary(id)
    ensures Dir(Render(p.Child(id))) == Render(p)
  {
    RenderChild(p, id);
    UpToLastSlashAppend(Prefix(p), id);
    ParsePrefix(p);
  }

  /** The VM directory of `id`, for every vms_dir string. */
  lemma VMDirString(vmsDir: Bytes, id: Bytes)
    requires Ordinary(id)
    ensures Join([vmsDir, id]) == Render(Parse(vmsDir).Child(id))
    ensures Normal(Parse(vmsDir).Child(id))
  {
    JoinOrdinary(vmsDir, [id]);
    assert [vmsDir] + [id] == [vmsDir, id];
  }

  lemma FirecrackerIsOrdinary()
    ensures Ordinary(FIRECRACKER)
  {
  }

  /** The directory CleanupJail removes for `id`, for every vms_dir string. */
  lemma JailDirString(vmsDir: Bytes, id: Bytes)
    requires Ordinary(id)
    ensures Join([vmsDir, FIRECRACKER, id]) == Render(Parse(vmsDir).Child(FIRECRACKER).Child(id))
    ensures Normal(Parse(vmsDir).Child(FIRECRACKER).Child(id))
  {
    FirecrackerIsOrdinary();
    JoinOrdinary(vmsDir, [FIRECRACKER, id]);
    assert [vmsDir] + [FIRECRACKER, id] == [vmsDir, FIRECRACKER, id];
    assert Parse(vmsDir).segs + [FIRECRACKER, id] == (Parse(vmsDir).segs + [FIRECRACKER]) + [id];
  }

  /**
   * Path agreement: the jail directory the jailed start derives from the parent of the VM
   * directory is the very directory CleanupJail removes, whatever string vms_dir is.
   */
  lemma JailPathAgreement(vmsDir: Bytes, id: Bytes)
    requires Ordinary(id)
    ensures Join([Dir(Join([vmsDir, id])), FIRECRACKER, id]) == Join([vmsDir, FIRECRACKER, id])
  {
    VMDirString(vmsDir, id);
    ParseIsNormal(vmsDir);
    DirOfChild(Parse(vmsDir), id);
    ParseRender(Parse(vmsDir));
    JailDirString(vmsDir, id);
    JailDirString(Dir(Join([vmsDir, id])), id);
  }

  /** Different ordinary ids never get the same VM directory or jail directory string. */
  lemma PathsAreInjective(vmsDir: Bytes, a: Bytes, b: Bytes)
    requires Ordinary(a) && Ordinary(b)
    ensures Join([vmsDir, a]) == Join([vmsDir, b]) <==> a == b
    ensures Join([vmsDir, FIRECRACKER, a]) == Join([vmsDir, FIRECRACKER, b]) <==> a == b
    ensures Join([vmsDir, a]) != Join([vmsDir, FIRECRACKER, b])
  {
    var base := Parse(vmsDir);
    VMDirString(vmsDir, a);
    VMDirString(vmsDir, b);
    JailDirString(vmsDir, a);
    JailDirString(vmsDir, b);
    ParseRender(base.Child(a));
    ParseRender(base.Child(b));
    ParseRender(base.Child(FIRECRACKER).Child(a));
    ParseRender(base.Child(FIRECRACKER).Child(b));
    var n := |base.segs|;
    assert base.Child(a).segs[n] == a && base.Child(b).segs[n] == b;
    assert base.Child(FIRECRACKER).Child(a).segs[n + 1] == a;
    assert base.Child(FIRECRACKER).Child(b).segs[n + 1] == b;
    assert |base.Child(a).segs| == n + 1 && |base.Child(FIRECRACKER).Child(b).segs| == n + 2;
  }
}
