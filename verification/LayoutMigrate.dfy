/** The layout migrator's apply and undo (contrib/fleet_layout_migrate.py:859-1005, 1139-1250), on
    a symbolic file system: one map from names to what they hold. */
module LayoutMigrate {
  import opened Common

  /** A name of the plan, or one of the two transitional names the operations make beside it. */
  datatype Path = Name(parts: seq<string>) | TmpOf(parts: seq<string>) | BackOf(parts: seq<string>)

  /** A directory, a payload known by its inode, a text the tool wrote, or a symbolic link. */
  datatype Node = Dir | Payload(ino: nat, isDir: bool) | Text(content: string) | Link(target: Path)

  type Names = map<Path, Node>

  datatype Op =
    | Mkdir(path: Path)
    | RmdirEmpty(path: Path)
    | WriteNew(path: Path, content: string)
    | Symlink(path: Path, target: Path)
    | Relocate(src: Path, dst: Path, ino: nat, isDir: bool)
    | Move(src: Path, dst: Path, ino: nat)

  /** Undone last, so that what was put inside them is gone by then. */
  predicate IsContainer(op: Op) {
    op.Mkdir? || op.RmdirEmpty? || op.WriteNew?
  }

  ghost function Touches(op: Op): set<Path> {
    match op
    case Relocate(src, dst, _, _) => {src, dst}
    case Move(src, dst, _) => {src, dst}
    case _ => {op.path}
  }

  function Parent(p: Path): Path {
    if p.Name? && p.parts != [] then Name(p.parts[..|p.parts| - 1]) else p
  }

  predicate Empty(fs: Names, p: Path) {
    forall q :: q in fs && q != p ==> Parent(q) != p
  }

  /** The name is free and its directory is there. */
  predicate Free(fs: Names, p: Path) {
    p !in fs && p.Name? && p.parts != [] && Parent(p) in fs && fs[Parent(p)] == Dir
  }

  /** The operation finds what the plan saw. */
  predicate Ready(fs: Names, op: Op) {
    match op
    case Mkdir(p) => Free(fs, p)
    case RmdirEmpty(p) => p in fs && fs[p] == Dir && Empty(fs, p)
    case WriteNew(p, _) => Free(fs, p)
    case Symlink(p, t) => Free(fs, p) && t in fs
    case Relocate(src, dst, ino, isDir) => src.Name? && src in fs && fs[src] == Payload(ino, isDir) && Free(fs, dst)
    case Move(src, dst, ino) => src.Name? && src in fs && fs[src] == Payload(ino, false) && Free(fs, dst)
  }

  /** What the operation leaves. */
  function Did(fs: Names, op: Op): Names {
    match op
    case Mkdir(p) => fs[p := Dir]
    case RmdirEmpty(p) => fs - {p}
    case WriteNew(p, content) => fs[p := Text(content)]
    case Symlink(p, t) => fs[p := Link(t)]
    case Relocate(src, dst, ino, isDir) => fs[src := Link(dst)][dst := Payload(ino, isDir)]
    case Move(src, dst, ino) => (fs - {src})[dst := Payload(ino, false)]
  }

  /** What was there before, put back. */
  function Undone(fs: Names, op: Op): Names {
    match op
    case RmdirEmpty(p) => fs[p := Dir]
    case Relocate(src, dst, _, _) => if dst in fs then fs[src := fs[dst]] - {dst} else fs
    case Move(src, dst, _) => if dst in fs then fs[src := fs[dst]] - {dst} else fs
    case _ => fs - {op.path}
  }

  lemma UndoneDid(fs: Names, op: Op)
    requires Ready(fs, op)
    ensures Undone(Did(fs, op), op) == fs
  {
  }

  // --------------------------------------------------------------------
  // What an operation asks for and does, name by name

  /** A name directly inside the directory. */
  ghost predicate Inside(p: Path, dir: Path) {
    p.Name? && dir.Name? && exists last :: p.parts == dir.parts + [last]
  }

  ghost predicate InSomeDir(fs: Names, p: Path) {
    exists dir :: dir in fs && fs[dir] == Dir && Inside(p, dir)
  }

  lemma ParentMeans(p: Path, dir: Path)
    requires p != dir
    ensures Parent(p) == dir <==> Inside(p, dir)
  {
    if Inside(p, dir) {
      var last :| p.parts == dir.parts + [last];
      assert p.parts[..|p.parts| - 1] == dir.parts;
    }
    if Parent(p) == dir { assert p.parts == dir.parts + [p.parts[|p.parts| - 1]]; }
  }

  /** A name is free exactly when nothing is there and it is directly inside a directory. */
  lemma FreeMeans(fs: Names, p: Path)
    ensures Free(fs, p) <==> p !in fs && InSomeDir(fs, p)
  {
    if p !in fs {
      if Free(fs, p) { ParentMeans(p, Parent(p)); }
      if InSomeDir(fs, p) {
        var dir :| dir in fs && fs[dir] == Dir && Inside(p, dir);
        ParentMeans(p, dir);
      }
    }
  }

  /** What an operation is refused for. */
  ghost predicate Refuses(fs: Names, op: Op) {
    match op
    case Mkdir(p) => p in fs || !InSomeDir(fs, p)
    case WriteNew(p, _) => p in fs || !InSomeDir(fs, p)
    case Symlink(p, t) => p in fs || !InSomeDir(fs, p) || t !in fs
    case RmdirEmpty(p) => p !in fs || fs[p] != Dir || exists q :: q in fs && q != p && Parent(q) == p
    case Relocate(src, dst, ino, isDir) =>
      !src.Name? || src !in fs || fs[src] != Payload(ino, isDir) || dst in fs || !InSomeDir(fs, dst)
    case Move(src, dst, ino) =>
      !src.Name? || src !in fs || fs[src] != Payload(ino, false) || dst in fs || !InSomeDir(fs, dst)
  }

  lemma ReadyIff(fs: Names, op: Op)
    ensures Ready(fs, op) <==> !Refuses(fs, op)
  {
    hide Free, InSomeDir, Parent;
    match op {
      case Relocate(_, dst, _, _) => FreeMeans(fs, dst);
      case Move(_, dst, _) => FreeMeans(fs, dst);
      case _ => FreeMeans(fs, op.path);
    }
  }

  /** An operation that was ready leaves every other name alone, and its own as it is meant to. */
  lemma DidMeans(fs: Names, op: Op)
    requires Ready(fs, op)
    ensures forall q :: q !in Touches(op) ==> (q in Did(fs, op) <==> q in fs)
    ensures forall q :: q !in Touches(op) && q in fs ==> Did(fs, op)[q] == fs[q]
    ensures op.Mkdir? ==> op.path in Did(fs, op) && Did(fs, op)[op.path].Dir?
    ensures op.RmdirEmpty? ==> op.path !in Did(fs, op)
    ensures op.WriteNew? ==> op.path in Did(fs, op) && Did(fs, op)[op.path] == Text(op.content)
    ensures op.Symlink? ==> op.path in Did(fs, op) && Did(fs, op)[op.path] == Link(op.target)
    ensures op.Relocate? || op.Move? ==> op.dst in Did(fs, op) && Did(fs, op)[op.dst] == fs[op.src]
    ensures op.Relocate? ==> op.src in Did(fs, op) && Did(fs, op)[op.src] == Link(op.dst)
    ensures op.Move? ==> op.src !in Did(fs, op)
  {
  }

  /** An undo leaves alone what is no longer as the operation left it. */
  ghost predicate LeavesAlone(fs: Names, op: Op) {
    match op
    case Mkdir(p) => p !in fs || fs[p] != Dir || exists q :: q in fs && q != p && Parent(q) == p
    case RmdirEmpty(p) => p in fs || !p.Name?
    case WriteNew(p, content) => p !in fs || fs[p] != Text(content)
    case Symlink(p, t) => p !in fs || fs[p] != Link(t)
    case Relocate(src, dst, _, isDir) =>
      || src !in fs || fs[src] != Link(dst) || dst !in fs
      || (forall ino :: fs[dst] != Payload(ino, isDir))
    case Move(src, dst, _) => src in fs || !src.Name? || dst !in fs
  }

  lemma ReversibleIff(fs: Names, op: Op)
    ensures Reversible(fs, op) <==> !LeavesAlone(fs, op)
  {
    if op.Relocate? && op.dst in fs && fs[op.dst].Payload? {
      assert fs[op.dst] == Payload(fs[op.dst].ino, fs[op.dst].isDir);
    }
  }

  // --------------------------------------------------------------------
  // Completed operations

  ghost function After(fs: Names, ops: seq<Op>): Names {
    if ops == [] then fs else Did(After(fs, ops[..|ops| - 1]), ops[|ops| - 1])
  }

  /** The tree after the first k operations. */
  ghost function At(fs: Names, ops: seq<Op>, k: nat): Names
    requires k <= |ops|
  {
    After(fs, ops[..k])
  }

  lemma AtStep(fs: Names, ops: seq<Op>, k: nat)
    requires k < |ops|
    ensures At(fs, ops, k + 1) == Did(At(fs, ops, k), ops[k])
  {
    assert ops[..k + 1][..k] == ops[..k];
  }

  /** Each operation was done, in order, on what it found. */
  ghost predicate Runs(fs: Names, ops: seq<Op>) {
    forall k :: 0 <= k < |ops| ==> Ready(At(fs, ops, k), ops[k])
  }

  /** What the plan saw when it was made: payloads at their sources, directories it may remove
      empty. */
  ghost predicate Observed(fs: Names, op: Op) {
    match op
    case Relocate(src, _, ino, isDir) => src in fs && fs[src] == Payload(ino, isDir)
    case Move(src, _, ino) => src in fs && fs[src] == Payload(ino, false)
    case RmdirEmpty(p) => Empty(fs, p)
    case _ => true
  }

  /** Completed operations of one plan: made from this tree, and no name that an archive was
      moved away from is used again. */
  ghost predicate Completed(fs: Names, ops: seq<Op>) {
    && Runs(fs, ops) && TreeOk(fs)
    && (forall k :: 0 <= k < |ops| ==> Observed(fs, ops[k]))
    && (forall i, j :: 0 <= i < j < |ops| && ops[i].Move? ==> ops[i].src !in Touches(ops[j]))
  }

  /** Every name is in a directory that is there. */
  ghost predicate TreeOk(fs: Names) {
    forall p :: p in fs ==> p.Name? && (p.parts != [] ==> Parent(p) in fs && fs[Parent(p)] == Dir)
  }

  lemma DidKeepsTree(fs: Names, op: Op)
    requires TreeOk(fs) && Ready(fs, op)
    ensures TreeOk(Did(fs, op))
  {
  }

  lemma {:induction false} TreeAt(fs: Names, ops: seq<Op>, k: nat)
    requires TreeOk(fs) && Runs(fs, ops) && k <= |ops|
    ensures TreeOk(At(fs, ops, k))
  {
    if k == 0 {
      assert ops[..0] == [];
    } else {
      hide Ready, Did, TreeOk;
      TreeAt(fs, ops, k - 1);
      AtStep(fs, ops, k - 1);
      DidKeepsTree(At(fs, ops, k - 1), ops[k - 1]);
    }
  }

  // --------------------------------------------------------------------
  // What later operations leave alone

  /** A payload's first name keeps it, or a link, until an archive move takes it away. */
  lemma {:induction false} PayloadNameKept(fs: Names, ops: seq<Op>, x: Path, k: nat)
    requires Runs(fs, ops) && k <= |ops| && x in fs && fs[x].Payload?
    requires forall m :: 0 <= m < k ==> !(ops[m].Move? && ops[m].src == x)
    ensures x in At(fs, ops, k) && (At(fs, ops, k)[x] == fs[x] || At(fs, ops, k)[x].Link?)
  {
    if k == 0 {
      assert ops[..0] == [];
    } else {
      PayloadNameKept(fs, ops, x, k - 1);
      AtStep(fs, ops, k - 1);
      assert Ready(At(fs, ops, k - 1), ops[k - 1]);
    }
  }

  /** What a link-making or moving operation left at its names. */
  ghost predicate Left(fs: Names, op: Op) {
    match op
    case Symlink(p, t) => p in fs && fs[p] == Link(t)
    case Relocate(src, dst, ino, isDir) =>
      src in fs && fs[src] == Link(dst) && dst in fs && fs[dst] == Payload(ino, isDir)
    case Move(src, dst, ino) => src !in fs && dst in fs && fs[dst] == Payload(ino, false)
    case _ => true
  }

  /** Nothing was a payload where an operation made a new name. */
  lemma NewNameWasNoPayload(fs: Names, ops: seq<Op>, i: nat, dst: Path)
    requires Completed(fs, ops) && i < |ops| && dst in Touches(ops[i]) && dst !in At(fs, ops, i)
    ensures !(dst in fs && fs[dst].Payload?)
  {
    if dst in fs && fs[dst].Payload? { PayloadNameKept(fs, ops, dst, i); }
  }

  lemma {:induction false} Stays(fs: Names, ops: seq<Op>, i: nat, j: nat)
    requires Completed(fs, ops) && i < j <= |ops| && !IsContainer(ops[i])
    ensures Left(At(fs, ops, j), ops[i])
    decreases j
  {
    hide Completed;
    CompletedAt(fs, ops, j - 1);
    AtStep(fs, ops, j - 1);
    if i == j - 1 {
      DidLeft(At(fs, ops, i), ops[i]);
    } else {
      Stays(fs, ops, i, j - 1);
      LaterAvoids(fs, ops, i, j - 1);
      LeftKept(At(fs, ops, j - 1), ops[j - 1], ops[i]);
    }
  }

  lemma CompletedAt(fs: Names, ops: seq<Op>, k: nat)
    requires Completed(fs, ops) && k < |ops|
    ensures Ready(At(fs, ops, k), ops[k]) && Observed(fs, ops[k])
  {
  }

  lemma DidLeft(fs: Names, op: Op)
    requires Ready(fs, op)
    ensures Left(Did(fs, op), op)
  {
  }

  lemma LeftKept(fs: Names, op: Op, earlier: Op)
    requires Left(fs, earlier) && !IsContainer(earlier) && Touches(op) !! Touches(earlier)
    ensures Left(Did(fs, op), earlier)
  {
  }

  /** A later operation touches no name of an earlier one that made links or moved things. */
  lemma LaterAvoids(fs: Names, ops: seq<Op>, i: nat, j: nat)
    requires Completed(fs, ops) && i < j < |ops| && !IsContainer(ops[i]) && Left(At(fs, ops, j), ops[i])
    ensures Touches(ops[j]) !! Touches(ops[i])
  {
    assert Ready(At(fs, ops, i), ops[i]) && Ready(At(fs, ops, j), ops[j]) && Observed(fs, ops[j]);
    if ops[i].Relocate? || ops[i].Move? { NewNameWasNoPayload(fs, ops, i, ops[i].dst); }
  }

  /** So the names of two operations meet only where the earlier one is a container. */
  lemma Avoids(fs: Names, ops: seq<Op>, i: nat, j: nat)
    requires Completed(fs, ops) && i < j < |ops| && !IsContainer(ops[i])
    ensures Touches(ops[j]) !! Touches(ops[i])
  {
    Stays(fs, ops, i, j);
    LaterAvoids(fs, ops, i, j);
  }

  /** Until its own turn, nothing touches the name a payload is relocated from. */
  lemma {:induction false} SourceUntouched(fs: Names, ops: seq<Op>, i: nat, k: nat)
    requires Completed(fs, ops) && k <= i < |ops| && ops[i].Relocate?
    ensures ops[i].src in At(fs, ops, k) && At(fs, ops, k)[ops[i].src] == Payload(ops[i].ino, ops[i].isDir)
    ensures forall m :: 0 <= m < k ==> ops[i].src !in Touches(ops[m])
    decreases k
  {
    hide Completed;
    CompletedAt(fs, ops, i);
    if k == 0 {
      assert ops[..0] == [];
    } else {
      SourceUntouched(fs, ops, i, k - 1);
      AtStep(fs, ops, k - 1);
      CompletedAt(fs, ops, k - 1);
      if !IsContainer(ops[k - 1]) { Avoids(fs, ops, k - 1, i); }
    }
  }

  // --------------------------------------------------------------------
  // The containers alone

  ghost function Containers(ops: seq<Op>): seq<Op> {
    if ops == [] then []
    else Containers(ops[..|ops| - 1]) + (if IsContainer(ops[|ops| - 1]) then [ops[|ops| - 1]] else [])
  }

  lemma ContainersStep(ops: seq<Op>, k: nat)
    requires k < |ops|
    ensures Containers(ops[..k + 1])
            == if IsContainer(ops[k]) then Containers(ops[..k]) + [ops[k]] else Containers(ops[..k])
  {
    assert ops[..k + 1][..k] == ops[..k];
  }

  lemma AfterAppend(fs: Names, ops: seq<Op>, op: Op)
    ensures After(fs, ops + [op]) == Did(After(fs, ops), op)
  {
    assert (ops + [op])[..|ops|] == ops;
  }

  /** The tree had only the containers been done. */
  ghost function Only(fs: Names, ops: seq<Op>, k: nat): Names
    requires k <= |ops|
  {
    After(fs, Containers(ops[..k]))
  }

  lemma OnlyStep(fs: Names, ops: seq<Op>, k: nat)
    requires k < |ops|
    ensures Only(fs, ops, k + 1) == if IsContainer(ops[k]) then Did(Only(fs, ops, k), ops[k]) else Only(fs, ops, k)
  {
    ContainersStep(ops, k);
    AfterAppend(fs, Containers(ops[..k]), ops[k]);
  }

  /** Away from what the others touched, the two trees agree. */
  lemma {:induction false} AgreeElsewhere(fs: Names, ops: seq<Op>, k: nat, x: Path)
    requires k <= |ops| && forall m :: 0 <= m < k && !IsContainer(ops[m]) ==> x !in Touches(ops[m])
    ensures x in Only(fs, ops, k) <==> x in At(fs, ops, k)
    ensures x in At(fs, ops, k) ==> Only(fs, ops, k)[x] == At(fs, ops, k)[x]
    decreases k
  {
    if k == 0 {
      assert ops[..0] == [];
    } else {
      hide Only, At;
      AgreeElsewhere(fs, ops, k - 1, x);
      OnlyStep(fs, ops, k - 1);
      AtStep(fs, ops, k - 1);
    }
  }

  /** A name neither there nor in the containers' tree by another's doing was an archive's. */
  lemma {:induction false} OnlyHasMore(fs: Names, ops: seq<Op>, k: nat, x: Path)
    requires Completed(fs, ops) && k <= |ops| && x in Only(fs, ops, k) && x !in At(fs, ops, k)
    ensures x in fs && fs[x].Payload?
  {
    hide Completed;
    if m :| 0 <= m < k && !IsContainer(ops[m]) && x in Touches(ops[m]) {
      Stays(fs, ops, m, k);
      CompletedAt(fs, ops, m);
    } else {
      AgreeElsewhere(fs, ops, k, x);
    }
  }

  /** A directory that is there is there in the containers' tree too. */
  lemma DirsAgree(fs: Names, ops: seq<Op>, k: nat, x: Path)
    requires Completed(fs, ops) && k <= |ops| && x in At(fs, ops, k) && At(fs, ops, k)[x] == Dir
    ensures x in Only(fs, ops, k) && Only(fs, ops, k)[x] == Dir
  {
    hide Completed;
    forall m | 0 <= m < k && !IsContainer(ops[m]) ensures x !in Touches(ops[m]) { Stays(fs, ops, m, k); }
    AgreeElsewhere(fs, ops, k, x);
  }

  /** Each container would have been done on the containers' tree as well. */
  lemma OnlyReady(fs: Names, ops: seq<Op>, k: nat)
    requires Completed(fs, ops) && k < |ops| && IsContainer(ops[k])
    ensures Ready(Only(fs, ops, k), ops[k])
  {
    hide Completed, Only, At;
    CompletedAt(fs, ops, k);
    var p := ops[k].path;
    forall m | 0 <= m < k && !IsContainer(ops[m]) ensures p !in Touches(ops[m]) { Avoids(fs, ops, m, k); }
    AgreeElsewhere(fs, ops, k, p);
    if ops[k].RmdirEmpty? {
      forall q | q in Only(fs, ops, k) && q != p ensures Parent(q) != p {
        if q !in At(fs, ops, k) { OnlyHasMore(fs, ops, k, q); }
      }
    } else {
      DirsAgree(fs, ops, k, Parent(p));
    }
  }

  /** So the containers alone are a run, and its tree is a tree. */
  lemma {:induction false} OnlyTree(fs: Names, ops: seq<Op>, k: nat)
    requires Completed(fs, ops) && k <= |ops|
    ensures TreeOk(Only(fs, ops, k))
    decreases k
  {
    if k == 0 {
      assert ops[..0] == [];
    } else {
      hide Completed, Only, TreeOk;
      OnlyTree(fs, ops, k - 1);
      OnlyStep(fs, ops, k - 1);
      if IsContainer(ops[k - 1]) {
        OnlyReady(fs, ops, k - 1);
        DidKeepsTree(Only(fs, ops, k - 1), ops[k - 1]);
      }
    }
  }

  // --------------------------------------------------------------------
  // Half undone: the others from the i-th on are back, the containers not

  ghost function Mixed(fs: Names, ops: seq<Op>, i: nat, k: nat): Names
    requires i <= k <= |ops|
    decreases k
  {
    if k == i then At(fs, ops, i)
    else if IsContainer(ops[k - 1]) then Did(Mixed(fs, ops, i, k - 1), ops[k - 1])
    else Mixed(fs, ops, i, k - 1)
  }

  lemma {:induction false} MixedOnly(fs: Names, ops: seq<Op>, k: nat)
    requires k <= |ops|
    ensures Mixed(fs, ops, 0, k) == Only(fs, ops, k)
    decreases k
  {
    if k == 0 {
      assert ops[..0] == [];
    } else {
      MixedOnly(fs, ops, k - 1);
      OnlyStep(fs, ops, k - 1);
    }
  }

  /** What the operation leaves at a name it touches; None is nothing. */
  ghost function Effect(op: Op, x: Path): Option<Node> {
    match op
    case Mkdir(_) => Some(Dir)
    case RmdirEmpty(_) => None
    case WriteNew(_, content) => Some(Text(content))
    case Symlink(_, t) => Some(Link(t))
    case Relocate(_, dst, ino, isDir) => if x == dst then Some(Payload(ino, isDir)) else Some(Link(dst))
    case Move(_, dst, ino) => if x == dst then Some(Payload(ino, false)) else None
  }

  lemma DidPoint(fs: Names, op: Op, x: Path)
    ensures x in Did(fs, op) <==> if x in Touches(op) then Effect(op, x).Some? else x in fs
    ensures x in Did(fs, op) ==> Did(fs, op)[x] == if x in Touches(op) then Effect(op, x).value else fs[x]
  {
  }

  lemma Commute(fs: Names, op: Op, c: Op)
    requires IsContainer(c) && Touches(op) !! Touches(c)
    ensures Did(Did(fs, op), c) == Did(Did(fs, c), op)
  {
    hide Did, Touches, Effect;
    var a, b := Did(Did(fs, op), c), Did(Did(fs, c), op);
    forall x ensures (x in a <==> x in b) && (x in a ==> a[x] == b[x]) {
      DidPoint(fs, op, x);
      DidPoint(fs, c, x);
      DidPoint(Did(fs, op), c, x);
      DidPoint(Did(fs, c), op, x);
    }
  }

  lemma {:induction false} MixedStep(fs: Names, ops: seq<Op>, i: nat, k: nat)
    requires Completed(fs, ops) && i < k <= |ops|
    ensures Mixed(fs, ops, i + 1, k) ==
      if IsContainer(ops[i]) then Mixed(fs, ops, i, k) else Did(Mixed(fs, ops, i, k), ops[i])
    decreases k
  {
    hide Completed, Did, At, Touches;
    if k == i + 1 {
      AtStep(fs, ops, i);
    } else {
      MixedStep(fs, ops, i, k - 1);
      if IsContainer(ops[k - 1]) && !IsContainer(ops[i]) {
        Avoids(fs, ops, i, k - 1);
        Commute(Mixed(fs, ops, i, k - 1), ops[i], ops[k - 1]);
      }
    }
  }

  /** Before the operation: its new name free, its payload at its source. */
  ghost predicate Fresh(fs: Names, op: Op) {
    match op
    case Symlink(p, _) => p !in fs
    case Relocate(src, dst, ino, isDir) => src in fs && fs[src] == Payload(ino, isDir) && dst !in fs && src != dst
    case Move(src, dst, ino) => src in fs && fs[src] == Payload(ino, false) && dst !in fs && src != dst
    case _ => true
  }

  lemma FreshKept(fs: Names, op: Op, c: Op)
    requires Fresh(fs, op) && !IsContainer(op) && Touches(op) !! Touches(c)
    ensures Fresh(Did(fs, c), op)
  {
  }

  lemma {:induction false} MixedFresh(fs: Names, ops: seq<Op>, i: nat, k: nat)
    requires Completed(fs, ops) && i < |ops| && i <= k <= |ops| && !IsContainer(ops[i])
    ensures Fresh(Mixed(fs, ops, i, k), ops[i])
    decreases k
  {
    hide Completed, Did, Touches;
    if k == i {
      CompletedAt(fs, ops, i);
    } else {
      MixedFresh(fs, ops, i, k - 1);
      if k - 1 > i && IsContainer(ops[k - 1]) {
        Avoids(fs, ops, i, k - 1);
        FreshKept(Mixed(fs, ops, i, k - 1), ops[i], ops[k - 1]);
      }
    }
  }

  // --------------------------------------------------------------------
  // Old paths

  /** A relocated payload is reachable by its old path: still there, or one link away. */
  ghost predicate Resolves(fs: Names, op: Op) {
    op.Relocate? ==>
      && op.src in fs
      && (fs[op.src] == Payload(op.ino, op.isDir)
          || (fs[op.src] == Link(op.dst) && op.dst in fs && fs[op.dst] == Payload(op.ino, op.isDir)))
  }

  ghost predicate AllResolve(fs: Names, ops: seq<Op>) {
    forall m :: 0 <= m < |ops| ==> Resolves(fs, ops[m])
  }

  lemma ResolvesKept(fs: Names, w: Op, c: Op)
    requires Resolves(fs, w) && w.Relocate? && w.src !in Touches(c)
    requires fs[w.src] == Payload(w.ino, w.isDir) || w.dst !in Touches(c)
    ensures Resolves(Did(fs, c), w)
    ensures w.src in fs && fs[w.src] == Payload(w.ino, w.isDir) ==> Did(fs, c)[w.src] == fs[w.src]
  {
  }

  lemma {:induction false} MixedResolvesOne(fs: Names, ops: seq<Op>, i: nat, k: nat, m: nat)
    requires Completed(fs, ops) && i <= k <= |ops| && m < |ops| && ops[m].Relocate?
    ensures Resolves(Mixed(fs, ops, i, k), ops[m])
    ensures m >= i ==> Mixed(fs, ops, i, k)[ops[m].src] == Payload(ops[m].ino, ops[m].isDir)
    decreases k
  {
    hide Completed, Did;
    if k == i {
      if m < i { Stays(fs, ops, m, i); } else { SourceUntouched(fs, ops, m, i); }
    } else {
      MixedResolvesOne(fs, ops, i, k - 1, m);
      if IsContainer(ops[k - 1]) {
        if m < k - 1 { Avoids(fs, ops, m, k - 1); } else { SourceUntouched(fs, ops, m, m); }
        ResolvesKept(Mixed(fs, ops, i, k - 1), ops[m], ops[k - 1]);
      }
    }
  }

  lemma MixedResolves(fs: Names, ops: seq<Op>, i: nat, k: nat)
    requires Completed(fs, ops) && i <= k <= |ops|
    ensures AllResolve(Mixed(fs, ops, i, k), ops)
  {
    hide Completed, Mixed;
    forall m | 0 <= m < |ops| ensures Resolves(Mixed(fs, ops, i, k), ops[m]) {
      if ops[m].Relocate? { MixedResolvesOne(fs, ops, i, k, m); }
    }
  }

  /** New names leave every old path resolving. */
  lemma MoreNamesResolve(fs: Names, fs': Names, ops: seq<Op>)
    requires AllResolve(fs, ops) && forall p :: p in fs ==> p in fs' && fs'[p] == fs[p]
    ensures AllResolve(fs', ops)
  {
    forall m | 0 <= m < |ops| ensures Resolves(fs', ops[m]) { assert Resolves(fs, ops[m]); }
  }

  // --------------------------------------------------------------------
  // The host

  ghost predicate Plain(fs: Names) {
    forall p :: p in fs ==> p.Name?
  }

  class Host {
    var names: Names
    /** The operations whose relocated payloads must be reachable by their old paths, always. */
    ghost const watched: seq<Op>

    ghost predicate Valid()
      reads this
    {
      AllResolve(names, watched)
    }

    constructor (names: Names, ghost watched: seq<Op>)
      requires AllResolve(names, watched)
      ensures Valid() && this.names == names && this.watched == watched
    {
      this.names := names;
      this.watched := watched;
    }

    /** One atomic change of the tree. Every old path resolves after it. */
    method Set(after: Names)
      requires Valid() && AllResolve(after, watched)
      modifies this`names
      ensures Valid() && names == after
    {
      names := after;
    }

    /** Do one operation, or refuse when the host is not as the plan saw it. */
    method DoOp(op: Op) returns (ok: bool)
      requires Valid() && Plain(names) && (Ready(names, op) ==> AllResolve(Did(names, op), watched))
      modifies this`names
      ensures Valid() && (ok <==> Ready(old(names), op))
      ensures names == if ok then Did(old(names), op) else old(names)
    {
      hide AllResolve, Empty;
      if !Ready(names, op) { return false; }
      ghost var before := names;
      if op.Relocate? && op.isDir {
        // a placeholder that names its own final target, then one exchange
        MoreNamesResolve(before, names[op.dst := Link(op.dst)], watched);
        Set(names[op.dst := Link(op.dst)]);
        assert names[op.src := names[op.dst]][op.dst := names[op.src]] == Did(before, op);
        Set(names[op.src := names[op.dst]][op.dst := names[op.src]]);
      } else if op.Relocate? {
        // a second name for the inode, then a link renamed over the first
        var tmp := TmpOf(op.src.parts);
        MoreNamesResolve(before, names[op.dst := names[op.src]], watched);
        Set(names[op.dst := names[op.src]]);
        MoreNamesResolve(names, names[tmp := Link(op.dst)], watched);
        Set(names[tmp := Link(op.dst)]);
        assert (names - {tmp})[op.src := names[tmp]] == Did(before, op);
        Set((names - {tmp})[op.src := names[tmp]]);
      } else {
        Set(Did(names, op));
      }
      ok := true;
    }

    /** Reverse one recorded operation, or leave alone what is no longer as it was left. A
        relocation's new name outlives it, in `deferred`. */
    method UndoOp(op: Op) returns (kept: bool, deferred: set<Path>)
      requires Valid() && Plain(names) && (Reversible(names, op) ==> AllResolve(Undone(names, op), watched))
      modifies this`names
      ensures Valid() && Plain(names)
      ensures kept <==> !Reversible(old(names), op)
      ensures kept ==> names == old(names) && deferred == {}
      ensures !kept ==> deferred == (if op.Relocate? then {op.dst} else {})
                        && names == Undone(old(names), op) + Leftover(old(names), op)
    {
      hide AllResolve, Empty;
      if !Reversible(names, op) { return true, {}; }
      kept, deferred := false, {};
      ghost var before := names;
      if op.Relocate? && op.isDir {
        var back := BackOf(op.dst.parts);
        MoreNamesResolve(before, names[back := Link(op.src)], watched);
        Set(names[back := Link(op.src)]);
        MoreNamesResolve(Undone(before, op), names[op.src := names[op.dst]][op.dst := names[op.src]], watched);
        Set(names[op.src := names[op.dst]][op.dst := names[op.src]]);
        MoreNamesResolve(Undone(before, op), (names - {back})[op.dst := names[back]], watched);
        Set((names - {back})[op.dst := names[back]]);
        deferred := {op.dst};
      } else if op.Relocate? {
        var tmp := TmpOf(op.src.parts);
        MoreNamesResolve(before, names[tmp := names[op.dst]], watched);
        Set(names[tmp := names[op.dst]]);
        MoreNamesResolve(Undone(before, op), (names - {tmp})[op.src := names[tmp]], watched);
        Set((names - {tmp})[op.src := names[tmp]]);
        deferred := {op.dst};
      } else {
        Set(Undone(names, op));
      }
    }
  }

  /** What an undone relocation leaves at its new name for lookups already on their way. */
  ghost function Leftover(fs: Names, op: Op): Names {
    if op.Relocate? && op.dst in fs then map[op.dst := if op.isDir then Link(op.src) else fs[op.dst]] else map[]
  }

  /** The operation's names are as it left them. */
  predicate Reversible(fs: Names, op: Op) {
    match op
    case Mkdir(p) => p in fs && fs[p] == Dir && Empty(fs, p)
    case RmdirEmpty(p) => p !in fs && p.Name?
    case WriteNew(p, content) => p in fs && fs[p] == Text(content)
    case Symlink(p, t) => p in fs && fs[p] == Link(t)
    case Relocate(src, dst, _, isDir) =>
      && src in fs && fs[src] == Link(dst) && dst in fs && fs[dst].Payload? && fs[dst].isDir == isDir
    case Move(src, dst, _) => src !in fs && src.Name? && dst in fs
  }

  // --------------------------------------------------------------------
  // Applying and undoing

  lemma PrefixRuns(fs: Names, plan: seq<Op>, k: nat)
    requires k < |plan| && Runs(fs, plan[..k])
    ensures Ready(At(fs, plan, k), plan[k]) ==> Runs(fs, plan[..k + 1])
  {
    hide Ready, After;
    if Ready(At(fs, plan, k), plan[k]) {
      var more := plan[..k + 1];
      forall m | 0 <= m < |more| ensures Ready(At(fs, more, m), more[m]) {
        assert more[..m] == plan[..m];
        if m < k {
          assert plan[..k][..m] == plan[..m];
          assert Ready(At(fs, plan[..k], m), plan[..k][m]);
        }
      }
    }
  }

  lemma TreePlain(fs: Names, ops: seq<Op>)
    requires TreeOk(fs) && Runs(fs, ops)
    ensures Plain(After(fs, ops))
  {
    TreeAt(fs, ops, |ops|);
    assert ops[..|ops|] == ops;
  }

  /** Undone with the others, what is half undone goes one operation further back. */
  lemma UndoMixed(fs: Names, ops: seq<Op>, i: nat, extra: Names)
    requires Completed(fs, ops) && i < |ops| && !IsContainer(ops[i])
    requires forall p :: p in extra ==> p !in Touches(ops[i])
    ensures var m := Mixed(fs, ops, i, |ops|);
            var now := Mixed(fs, ops, i + 1, |ops|) + extra;
            && Reversible(now, ops[i]) && Undone(now, ops[i]) == m + extra
            && Leftover(now, ops[i]).Keys <= Touches(ops[i])
            && (ops[i].Relocate? ==> ops[i].dst !in m + extra && ops[i].dst.Name?)
            && m.Keys <= Mixed(fs, ops, i + 1, |ops|).Keys + Touches(ops[i])
  {
    hide Completed, Mixed;
    MixedStep(fs, ops, i, |ops|);
    MixedFresh(fs, ops, i, |ops|);
    CompletedAt(fs, ops, i);
    UndoFresh(Mixed(fs, ops, i, |ops|), ops[i], extra);
  }

  lemma UndoFresh(m: Names, op: Op, extra: Names)
    requires Fresh(m, op) && !IsContainer(op) && (op.Move? ==> op.src.Name?)
    requires forall p :: p in extra ==> p !in Touches(op)
    ensures var now := Did(m, op) + extra;
            && Reversible(now, op) && Undone(now, op) == m + extra && Leftover(now, op).Keys <= Touches(op)
            && (op.Relocate? ==> op.dst !in m + extra) && m.Keys <= Did(m, op).Keys + Touches(op)
  {
  }

  /** The names that outlive the first batch belong to relocations already undone. */
  ghost predicate LeftFrom(ops: seq<Op>, i: nat, extra: Names) {
    forall p :: p in extra ==> p.Name? && exists j :: i <= j < |ops| && !IsContainer(ops[j]) && p in Touches(ops[j])
  }

  lemma LeftFromAvoids(fs: Names, ops: seq<Op>, i: nat, extra: Names)
    requires Completed(fs, ops) && i < |ops| && LeftFrom(ops, i + 1, extra) && !IsContainer(ops[i])
    ensures forall p :: p in extra ==> p !in Touches(ops[i])
  {
    hide Completed;
    forall p | p in extra ensures p !in Touches(ops[i]) {
      var j :| i + 1 <= j < |ops| && !IsContainer(ops[j]) && p in Touches(ops[j]);
      Avoids(fs, ops, i, j);
    }
  }

  /** Half undone down to the i-th operation, with some new names still there. */
  ghost predicate BackTo(fs: Names, ops: seq<Op>, i: nat, names: Names, extra: Names) {
    && i <= |ops| && Plain(names) && names == Mixed(fs, ops, i, |ops|) + extra
    && LeftFrom(ops, i, extra) && extra.Keys !! Mixed(fs, ops, i, |ops|).Keys
  }

  /** One operation of the first batch. */
  method UndoOther(host: Host, ops: seq<Op>, i: nat, ghost fs: Names, ghost extra: Names)
    returns (more: set<Path>, ghost extra': Names)
    requires Completed(fs, ops) && i < |ops| && !IsContainer(ops[i]) && host.watched == ops && host.Valid()
    requires BackTo(fs, ops, i + 1, host.names, extra)
    modifies host`names
    ensures host.Valid() && BackTo(fs, ops, i, host.names, extra') && extra'.Keys == extra.Keys + more
  {
    hide Completed, Mixed, AllResolve, Undone, Leftover, LeftFrom, Reversible, Touches;
    LeftFromAvoids(fs, ops, i, extra);
    UndoMixed(fs, ops, i, extra);
    MixedResolves(fs, ops, i, |ops|);
    ghost var m := Mixed(fs, ops, i, |ops|);
    MoreExtra(m, Mixed(fs, ops, i + 1, |ops|), extra, ops[i]);
    MoreNamesResolve(m, m + extra, ops);
    ghost var left := Leftover(host.names, ops[i]);
    LeftoverFacts(host.names, ops[i]);
    var kept;
    kept, more := host.UndoOp(ops[i]);
    LeftFromMore(ops, i, extra, left);
    extra' := extra + left;
    assert m + extra + left == m + extra';
  }

  lemma MoreExtra(m: Names, next: Names, extra: Names, op: Op)
    requires extra.Keys !! next.Keys && m.Keys <= next.Keys + Touches(op)
    requires forall p :: p in extra ==> p !in Touches(op)
    ensures extra.Keys !! m.Keys && forall p :: p in m ==> p in m + extra && (m + extra)[p] == m[p]
  {
    hide Touches;
  }

  /** The first batch: every operation that is not a container, latest first. */
  method UndoOthers(host: Host, ops: seq<Op>, ghost fs: Names) returns (deferred: set<Path>)
    requires Completed(fs, ops) && host.watched == ops && host.names == After(fs, ops) && host.Valid()
    modifies host`names
    ensures host.Valid() && deferred <= host.names.Keys && host.names - deferred == Only(fs, ops, |ops|)
  {
    hide Completed, Mixed, AllResolve, LeftFrom;
    deferred := {};
    ghost var extra: Names := map[];
    StartUndo(fs, ops);
    var i := |ops|;
    while i > 0
      invariant 0 <= i <= |ops| && host.Valid() && BackTo(fs, ops, i, host.names, extra) && extra.Keys == deferred
    {
      i := i - 1;
      if !IsContainer(ops[i]) {
        var more;
        more, extra := UndoOther(host, ops, i, fs, extra);
        deferred := deferred + more;
      } else {
        MixedStep(fs, ops, i, |ops|);
        LeftFromLess(ops, i, extra);
      }
    }
    MixedOnly(fs, ops, |ops|);
  }

  lemma StartUndo(fs: Names, ops: seq<Op>)
    requires Completed(fs, ops)
    ensures Mixed(fs, ops, |ops|, |ops|) + map[] == After(fs, ops) && Plain(After(fs, ops))
    ensures LeftFrom(ops, |ops|, map[])
  {
    TreePlain(fs, ops);
    assert ops[..|ops|] == ops;
  }

  lemma LeftoverFacts(fs: Names, op: Op)
    requires Reversible(fs, op)
    ensures Leftover(fs, op).Keys == if op.Relocate? then {op.dst} else {}
  {
  }

  lemma LeftFromMore(ops: seq<Op>, i: nat, extra: Names, left: Names)
    requires LeftFrom(ops, i + 1, extra) && i < |ops| && !IsContainer(ops[i])
    requires left.Keys <= Touches(ops[i]) && forall p :: p in left ==> p.Name?
    ensures LeftFrom(ops, i, extra + left)
  {
    hide Touches;
    LeftFromLess(ops, i, extra);
    forall p | p in extra + left
      ensures p.Name? && exists j :: i <= j < |ops| && !IsContainer(ops[j]) && p in Touches(ops[j])
    {
      if p in left { assert !IsContainer(ops[i]) && p in Touches(ops[i]); }
    }
  }

  lemma LeftFromLess(ops: seq<Op>, i: nat, extra: Names)
    requires LeftFrom(ops, i + 1, extra)
    ensures LeftFrom(ops, i, extra)
  {
    hide Touches;
    forall p | p in extra
      ensures p.Name? && exists j :: i <= j < |ops| && !IsContainer(ops[j]) && p in Touches(ops[j])
    {
      var j :| i + 1 <= j < |ops| && !IsContainer(ops[j]) && p in Touches(ops[j]);
    }
  }

  /** After the grace period the transitional names go. */
  method RemoveDeferred(host: Host, deferred: set<Path>, ghost after: Names)
    requires host.Valid() && host.names - deferred == after && AllResolve(after, host.watched)
    modifies host`names
    ensures host.Valid() && host.names == after
  {
    hide AllResolve;
    var rest := deferred;
    while rest != {}
      invariant host.Valid() && rest <= deferred && host.names - rest == after
      decreases |rest|
    {
      var p :| p in rest;
      MoreNamesResolve(after, host.names - {p}, host.watched);
      assert host.names - {p} - (rest - {p}) == after;
      host.Set(host.names - {p});
      rest := rest - {p};
    }
    assert host.names - {} == host.names;
  }

  /** The second batch: the containers, latest first, each empty by then. */
  method UndoContainers(host: Host, ops: seq<Op>, ghost fs: Names)
    requires Completed(fs, ops) && host.watched == ops && host.names == Only(fs, ops, |ops|) && host.Valid()
    modifies host`names
    ensures host.Valid() && host.names == fs
  {
    hide Completed, AllResolve, Only, Undone, Reversible, Ready;
    var i := |ops|;
    while i > 0
      invariant 0 <= i <= |ops| && host.Valid() && host.names == Only(fs, ops, i)
    {
      i := i - 1;
      OnlyStep(fs, ops, i);
      if IsContainer(ops[i]) {
        OnlyReady(fs, ops, i);
        OnlyTree(fs, ops, i);
        OnlyTree(fs, ops, i + 1);
        UndoContainer(Only(fs, ops, i), ops[i]);
        OnlyResolves(fs, ops, i);
        var kept, more := host.UndoOp(ops[i]);
      }
    }
    OnlyStart(fs, ops);
  }

  lemma OnlyStart(fs: Names, ops: seq<Op>)
    ensures Only(fs, ops, 0) == fs
  {
    assert ops[..0] == [];
  }

  lemma UndoContainer(fs: Names, op: Op)
    requires Ready(fs, op) && IsContainer(op) && TreeOk(fs) && TreeOk(Did(fs, op))
    ensures Reversible(Did(fs, op), op) && Undone(Did(fs, op), op) + Leftover(Did(fs, op), op) == fs
    ensures Undone(Did(fs, op), op) == fs && Plain(Did(fs, op))
  {
    hide Empty;
    UndoneDid(fs, op);
    if op.Mkdir? { NewDirEmpty(fs, op.path); }
  }

  lemma NewDirEmpty(fs: Names, p: Path)
    requires TreeOk(fs) && p !in fs && p.Name?
    ensures Empty(fs[p := Dir], p)
  {
    forall q | q in fs && q != p ensures Parent(q) != p {
      if q.parts != [] { assert Parent(q) in fs; }
    }
  }

  /** With the others undone, each relocated payload is at its old path itself. */
  lemma OnlyResolves(fs: Names, ops: seq<Op>, k: nat)
    requires Completed(fs, ops) && k <= |ops|
    ensures AllResolve(Only(fs, ops, k), ops)
  {
    hide Completed, Mixed, Only;
    MixedOnly(fs, ops, k);
    MixedResolves(fs, ops, 0, k);
  }

  /** `undo`, in its two batches, puts back every name, payloads with their inodes; and at every
      step of it each relocated payload's old path leads to that payload. */
  method Undo(host: Host, ops: seq<Op>, ghost fs: Names)
    requires Completed(fs, ops) && host.watched == ops && host.names == After(fs, ops) && host.Valid()
    modifies host`names
    ensures host.Valid() && host.names == fs
  {
    hide Completed, AllResolve, Only, After;
    var deferred := UndoOthers(host, ops, fs);
    OnlyResolves(fs, ops, |ops|);
    RemoveDeferred(host, deferred, Only(fs, ops, |ops|));
    UndoContainers(host, ops, fs);
  }

  /** How far the plan gets on this tree. */
  ghost function Reach(fs: Names, plan: seq<Op>, k: nat): (d: nat)
    requires k <= |plan| && Runs(fs, plan[..k])
    ensures k <= d <= |plan| && Runs(fs, plan[..d]) && (d < |plan| ==> !Ready(At(fs, plan, d), plan[d]))
    decreases |plan| - k
  {
    if k == |plan| || !Ready(At(fs, plan, k), plan[k]) then k
    else
      PrefixRuns(fs, plan, k);
      Reach(fs, plan, k + 1)
  }

  lemma NoneRuns(fs: Names, plan: seq<Op>)
    ensures plan[..0] == [] && Runs(fs, plan[..0])
  {
  }

  /** How many of the plan's operations are completed on this tree. */
  ghost function Reached(fs: Names, plan: seq<Op>): (d: nat)
    ensures d <= |plan|
  {
    NoneRuns(fs, plan);
    Reach(fs, plan, 0)
  }

  /** Apply a plan until an operation refuses: exactly as far as it reaches. */
  method Apply(host: Host, plan: seq<Op>, ghost fs: Names) returns (done: nat)
    requires host.names == fs && TreeOk(fs) && host.Valid()
    requires forall k :: 0 <= k <= Reached(fs, plan) ==> AllResolve(At(fs, plan, k), host.watched)
    modifies host`names
    ensures done == Reached(fs, plan) && host.names == At(fs, plan, done) && host.Valid()
  {
    hide Ready, Did, AllResolve;
    done := 0;
    NoneRuns(fs, plan);
    while done < |plan|
      invariant done <= |plan| && Runs(fs, plan[..done]) && host.names == At(fs, plan, done) && host.Valid()
      invariant Reach(fs, plan, done) == Reached(fs, plan)
    {
      PrefixRuns(fs, plan, done);
      TreePlain(fs, plan[..done]);
      AtStep(fs, plan, done);
      var ok := host.DoOp(plan[done]);
      if !ok { return; }
      done := done + 1;
    }
  }

  /** The names an operation makes. */
  function Creates(op: Op): set<Path> {
    match op
    case RmdirEmpty(_) => {}
    case Relocate(_, dst, _, _) => {dst}
    case Move(_, dst, _) => {dst}
    case _ => {op.path}
  }

  /** A plan as the planner makes it from this tree: every source is as it was seen, and no
      archive's old name is among the names the plan makes. */
  ghost predicate Planned(fs: Names, plan: seq<Op>) {
    && (forall k :: 0 <= k < |plan| ==> Observed(fs, plan[k]))
    && (forall i, j :: 0 <= i < |plan| && 0 <= j < |plan| && plan[i].Move? ==> plan[i].src !in Creates(plan[j]))
  }

  /** A name that is not there and that no operation makes stays away. */
  lemma StaysAway(fs: Names, op: Op, x: Path)
    requires Ready(fs, op) && x !in fs && x !in Creates(op)
    ensures x !in Did(fs, op) && x !in Touches(op)
  {
  }

  lemma MovedAway(fs: Names, op: Op)
    requires Ready(fs, op) && op.Move?
    ensures op.src !in Did(fs, op)
  {
  }

  /** What an archive was moved away from is not found again. */
  lemma {:induction false} VacatedStaysAway(fs: Names, ops: seq<Op>, i: nat, k: nat)
    requires Runs(fs, ops) && Planned(fs, ops) && i < k <= |ops| && ops[i].Move?
    ensures ops[i].src !in At(fs, ops, k)
  {
    hide Ready, Did, Observed, Creates, At;
    AtStep(fs, ops, k - 1);
    if i == k - 1 {
      MovedAway(At(fs, ops, i), ops[i]);
    } else {
      VacatedStaysAway(fs, ops, i, k - 1);
      StaysAway(At(fs, ops, k - 1), ops[k - 1], ops[i].src);
    }
  }

  /** However far a plan got, its completed operations are as the undo needs them. */
  lemma PlannedCompletes(fs: Names, plan: seq<Op>, n: nat)
    requires TreeOk(fs) && Planned(fs, plan) && n <= |plan| && Runs(fs, plan[..n])
    ensures Completed(fs, plan[..n])
  {
    hide Ready, Did, TreeOk;
    var ops := plan[..n];
    forall i, j | 0 <= i < j < |ops| && ops[i].Move? ensures ops[i].src !in Touches(ops[j]) {
      VacatedStaysAway(fs, ops, i, j);
      StaysAway(At(fs, ops, j), ops[j], ops[i].src);
    }
  }

  /** Apply a plan as far as it goes, then undo what was completed: the host is as it was. */
  method ApplyThenUndo(names: Names, plan: seq<Op>) returns (host: Host)
    requires TreeOk(names) && Planned(names, plan)
    ensures fresh(host) && host.names == names
    ensures host.watched == plan[..Reached(names, plan)] && host.Valid()
  {
    hide AllResolve, Mixed, Did, Ready, Planned;
    NoneRuns(names, plan);
    ghost var ops := plan[..Reached(names, plan)];
    PlannedCompletes(names, plan, Reached(names, plan));
    forall k | 0 <= k <= |ops| ensures AllResolve(At(names, plan, k), ops) {
      MixedResolves(names, ops, k, k);
      MixedHere(names, ops, k);
      assert ops[..k] == plan[..k];
    }
    assert At(names, plan, 0) == names;
    host := new Host(names, ops);
    var done := Apply(host, plan, names);
    Undo(host, plan[..done], names);
  }

  lemma MixedHere(fs: Names, ops: seq<Op>, k: nat)
    requires k <= |ops|
    ensures Mixed(fs, ops, k, k) == At(fs, ops, k)
  {
  }

  /** The condition on archives is needed: once something else takes the name an archive was
      moved away from, the first batch of an undo leaves the archive where it is. */
  lemma ReusedNameKeepsArchive(fs: Names, src: Path, dst: Path, ino: nat)
    requires Ready(fs, Move(src, dst, ino)) && Ready(Did(fs, Move(src, dst, ino)), Mkdir(src))
    ensures Runs(fs, [Move(src, dst, ino), Mkdir(src)])
    ensures !Reversible(After(fs, [Move(src, dst, ino), Mkdir(src)]), Move(src, dst, ino))
  {
    var ops := [Move(src, dst, ino), Mkdir(src)];
    assert ops[..0] == [] && ops[..1] == [ops[0]] && ops[..1][..0] == [];
    assert After(fs, ops[..1]) == Did(fs, ops[0]);
  }
}
