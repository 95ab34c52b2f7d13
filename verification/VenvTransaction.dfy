/** The journaled replacement of a virtualenv (scripts/_venv_transaction.py).

    A file system of six names beside the target is changed one durable step at a
    time. Before every step the process may die, so each command is verified for
    every crash point at once; a recovery may die the same way. */
module VenvTransaction {
  import opened Common

  /** A transaction's random 32-digit name. */
  type Token = nat

  /** Everything below a directory except the marker: relative name to a digest of
      its kind, mode and bytes. A tree digest is the tree itself. */
  type Tree = map<string, nat>

  datatype Dir = Dir(ino: nat, tree: Tree, marker: Option<Token>)

  datatype Phase = Armed | Building | Committed

  /** `original` is the inode moved aside, None for a new target. */
  datatype Receipt = Receipt(txn: Token, original: Option<nat>, candidate: Option<nat>,
                             digest: Option<Tree>, phase: Phase)

  datatype Path =
    | Target
    | ReceiptPath
    | ReceiptNext(txn: Token)
    | Backup(txn: Token)
    | Stage(txn: Token)
    | MarkerTemp(txn: Token)

  /** A `Torn` file holds some prefix of what was being written. */
  datatype Node = DirNode(dir: Dir) | ReceiptNode(receipt: Receipt) | MarkerNode(txn: Token) | Torn

  type Files = map<Path, Node>

  datatype Command = DoBegin(t: Token) | DoStart | DoBuild(d: Dir) | DoCommit | DoRecover

  datatype Verdict = RolledBack | Installed

  function DirAt(files: Files, p: Path): Option<Dir> {
    if p in files && files[p].DirNode? then Some(files[p].dir) else None
  }

  function InoOf(d: Option<Dir>): Option<nat> {
    if d.Some? then Some(d.value.ino) else None
  }

  function ReadReceipt(files: Files): Option<Receipt> {
    if ReceiptPath in files && files[ReceiptPath].ReceiptNode? then Some(files[ReceiptPath].receipt)
    else None
  }

  ghost function NamesOf(t: Token): set<Path> {
    {Target, ReceiptPath, ReceiptNext(t), Backup(t), Stage(t), MarkerTemp(t)}
  }

  /** The target has not moved: it is what it was when the transaction began. */
  ghost predicate Untouched(files: Files, t: Token, before: Option<Dir>) {
    DirAt(files, Target) == before && Backup(t) !in files
  }

  /** The original waits under the backup name and nothing holds the target name. */
  ghost predicate MovedAside(files: Files, t: Token, before: Option<Dir>) {
    before.Some? && Target !in files && DirAt(files, Backup(t)) == before
  }

  /** A replacement holds the target name; the original, if any, is the backup. */
  ghost predicate Replaced(files: Files, t: Token, before: Option<Dir>) {
    && Target in files
    && Stage(t) !in files
    && DirAt(files, Backup(t)) == before
    && (before.None? ==> Backup(t) !in files)
  }

  ghost predicate PhaseAgrees(files: Files, v: Receipt, before: Option<Dir>) {
    match v.phase
    case Armed => Untouched(files, v.txn, before)
    case Building =>
      && v.candidate.Some?
      && (Untouched(files, v.txn, before) || MovedAside(files, v.txn, before)
          || Replaced(files, v.txn, before))
    case Committed =>
      && v.candidate.Some?
      && Stage(v.txn) !in files
      && Target in files && files[Target].DirNode?
      && v.digest == Some(files[Target].dir.tree)
      && files[Target].dir.marker in {None, Some(v.txn)}
      && (Backup(v.txn) in files ==>
            before.Some? && InoOf(DirAt(files, Backup(v.txn))) == InoOf(before))
  }

  /** An open transaction with a complete receipt. */
  ghost predicate OpenWith(files: Files, v: Receipt, before: Option<Dir>) {
    var t := v.txn;
    && files.Keys <= NamesOf(t)
    && v.original == InoOf(before)
    && (before.Some? ==> before.value.marker != Some(t))
    && (Stage(t) in files ==>
          && files[Stage(t)].DirNode?
          && files[Stage(t)].dir.tree == map[] && files[Stage(t)].dir.marker == None
          && v.candidate in {None, Some(files[Stage(t)].dir.ino)})
    && (MarkerTemp(t) in files ==> files[MarkerTemp(t)] in {Torn, MarkerNode(t)})
    && (ReceiptNext(t) in files ==> !files[ReceiptNext(t)].DirNode?)
    && PhaseAgrees(files, v, before)
  }

  /** What holds between any two steps of any command, crashed or not. */
  ghost predicate Sound(files: Files, before: Option<Dir>) {
    && (Target in files ==> files[Target].DirNode?)
    && if ReceiptPath !in files then files.Keys <= {Target}
       else if files[ReceiptPath].ReceiptNode? then OpenWith(files, files[ReceiptPath].receipt, before)
       else files.Keys <= {Target, ReceiptPath} && files[ReceiptPath].Torn?
            && DirAt(files, Target) == before
  }

  /** The target a completed recovery must leave: the committed replacement without
      its marker, or what was there before the transaction. */
  ghost function Eventual(files: Files, before: Option<Dir>): Option<Dir> {
    match ReadReceipt(files)
    case None => DirAt(files, Target)
    case Some(v) =>
      if v.phase.Committed? && DirAt(files, Target).Some?
      then Some(DirAt(files, Target).value.(marker := None))
      else before
  }

  /** Someone swapped the installed candidate directory for another one. */
  predicate Displaced(files: Files) {
    var r := ReadReceipt(files);
    && r.Some?
    && !r.value.phase.Armed?
    && DirAt(files, Target).Some?
    && Some(DirAt(files, Target).value.ino) != r.value.candidate
    && (r.value.phase.Committed? || r.value.original.None? || Backup(r.value.txn) in files)
  }

  /** A build that replaces the directory it was to fill. */
  ghost predicate Displaces(c: Command, found: Option<Dir>) {
    c.DoBuild? && found.Some? && c.d.ino != found.value.ino
  }

  ghost predicate KeepsCandidate(script: seq<Command>, seen: seq<Option<Dir>>) {
    |seen| == |script| && forall i :: 0 <= i < |script| ==> !Displaces(script[i], seen[i])
  }

  /** The receipt's first write was cut short: a recovery refuses it, and nothing else was touched. */
  ghost predicate TornReceipt(files: Files) {
    ReceiptPath in files && ReadReceipt(files).None?
  }

  /** Neither command nor crash displaces a candidate or tears a complete receipt. */
  ghost predicate Recoverable(was: Files, files: Files) {
    (Displaced(files) ==> Displaced(was)) && (TornReceipt(files) ==> TornReceipt(was))
  }

  class VenvReplacement {
    var files: Files
    /** The target as it was when the open transaction began. */
    ghost var before: Option<Dir>

    ghost predicate Valid()
      reads this
    {
      Sound(files, before)
    }

    /** The directory a settled target name will hold. */
    ghost function Outcome(): Option<Dir>
      reads this
    {
      Eventual(files, before)
    }

    /** No transaction is open, nothing is left over, and the target is `d`. */
    ghost predicate Settled(d: Option<Dir>)
      reads this
    {
      files.Keys <= {Target} && DirAt(files, Target) == d
    }

    // ------------------------------------------------------------------
    // Durable steps. Each may die first; none refuses.

    method Put(p: Path, n: Node) returns (s: Status)
      modifies this`files
      ensures s.Ok? ==> files == old(files)[p := n]
      ensures !s.Ok? ==> s.Crash? && files == old(files)
    {
      if * { return Crash; }
      files := files[p := n];
      return Ok;
    }

    method Unlink(p: Path) returns (s: Status)
      modifies this`files
      ensures s.Ok? ==> files == old(files) - {p}
      ensures !s.Ok? ==> s.Crash? && files == old(files)
    {
      if * { return Crash; }
      files := files - {p};
      return Ok;
    }

    /** Atomic rename over whatever file the new name held. */
    method Rename(p: Path, q: Path) returns (s: Status)
      requires p in files && p != q
      modifies this`files
      ensures s.Ok? ==> files == (old(files) - {p})[q := old(files)[p]]
      ensures !s.Ok? ==> s.Crash? && files == old(files)
    {
      if * { return Crash; }
      files := (files - {p})[q := files[p]];
      return Ok;
    }

    /** A file is created empty, then filled: a crash in between leaves it torn. */
    method WriteFile(p: Path, n: Node) returns (s: Status)
      modifies this`files
      ensures s.Ok? ==> files == old(files)[p := n]
      ensures !s.Ok? ==> s.Crash? && (files == old(files) || files == old(files)[p := Torn])
    {
      assert files[p := Torn][p := n] == files[p := n];
      :- Put(p, Torn);
      :- Put(p, n);
      return Ok;
    }

    /** Removes a directory entry by entry; a crash leaves the same inode with less in it. */
    method RemoveTree(p: Path) returns (s: Status)
      requires p in files && files[p].DirNode?
      modifies this`files
      ensures s.Ok? ==> files == old(files) - {p}
      ensures !s.Ok? ==>
                && s.Crash?
                && p in files && files[p].DirNode?
                && files == old(files)[p := files[p]]
                && files[p].dir.ino == old(files)[p].dir.ino
    {
      while files[p].dir.tree != map[]
        invariant p in files && files[p].DirNode?
        invariant files == old(files)[p := files[p]]
        invariant files[p].dir.ino == old(files)[p].dir.ino
        decreases files[p].dir.tree.Keys
      {
        var d := files[p].dir;
        assert d.tree.Keys != {};
        var name :| name in d.tree;
        :- Put(p, DirNode(d.(tree := d.tree - {name})));
      }
      :- Put(p, DirNode(files[p].dir.(marker := None)));
      assert files - {p} == old(files) - {p};
      :- Unlink(p);
      return Ok;
    }

    // ------------------------------------------------------------------
    // The receipt

    method CreateReceipt(v: Receipt) returns (s: Status)
      requires Valid()
      requires v.phase.Armed? && v.candidate.None? && v.original == InoOf(DirAt(files, Target))
      requires Target in files && files[Target].DirNode? ==> files[Target].dir.marker != Some(v.txn)
      modifies this`files, this`before
      ensures Valid() && Outcome() == old(Outcome())
      ensures s.Raise? <==> ReceiptPath in old(files)
      ensures s.Raise? ==> files == old(files) && before == old(before)
      ensures s.Ok? ==> files == old(files)[ReceiptPath := ReceiptNode(v)]
      ensures s.Ok? ==> before == DirAt(files, Target)
      ensures s.Crash? ==> ReadReceipt(files) == None
    {
      if ReceiptPath in files {
        return Raise;
      }
      before := DirAt(files, Target);
      :- WriteFile(ReceiptPath, ReceiptNode(v));
      return Ok;
    }

    /** Scratch file beside the receipt, then one rename over it. */
    method ReplaceReceipt(v: Receipt) returns (s: Status)
      requires Valid()
      requires ReadReceipt(files).Some? && ReadReceipt(files).value.txn == v.txn
      requires OpenWith(files[ReceiptPath := ReceiptNode(v)], v, before)
      modifies this`files
      ensures Valid()
      ensures s.Raise? <==> ReceiptNext(v.txn) in old(files)
      ensures s.Raise? ==> files == old(files)
      ensures s.Ok? ==> files == old(files)[ReceiptPath := ReceiptNode(v)]
      ensures s.Crash? ==> files - {ReceiptNext(v.txn)} == old(files)
    {
      if ReceiptNext(v.txn) in files {
        return Raise;
      }
      :- WriteFile(ReceiptNext(v.txn), ReceiptNode(v));
      :- Rename(ReceiptNext(v.txn), ReceiptPath);
      assert files == old(files)[ReceiptPath := ReceiptNode(v)];
      return Ok;
    }

    // ------------------------------------------------------------------
    // Commands

    /** Opens a transaction named `t`: receipt, empty candidate directory, its inode. */
    method Begin(t: Token) returns (s: Status)
      requires Valid()
      requires DirAt(files, Target).Some? ==> DirAt(files, Target).value.marker != Some(t)  // a random name
      modifies this
      ensures Valid() && Outcome() == old(Outcome())
      ensures Displaced(files) ==> old(Displaced(files))
      ensures s.Raise? <==> ReceiptPath in old(files)
      ensures s.Raise? ==> files == old(files)
      ensures s.Ok? ==>
                && ReadReceipt(files).Some? && ReadReceipt(files).value.phase.Armed?
                && ReadReceipt(files).value.txn == t
                && Stage(t) in files && ReadReceipt(files).value.candidate == InoOf(DirAt(files, Stage(t)))
                && DirAt(files, Target) == old(DirAt(files, Target))
                && ReceiptNext(t) !in files && MarkerTemp(t) !in files
    {
      if Backup(t) in files || Stage(t) in files {
        return Raise;
      }
      var v := Receipt(t, InoOf(DirAt(files, Target)), None, None, Armed);
      :- CreateReceipt(v);
      var ino: nat := *;
      :- Put(Stage(t), DirNode(Dir(ino, map[], None)));
      :- ReplaceReceipt(v.(candidate := Some(ino)));
      return Ok;
    }

    /** `Start` will take this transaction on. */
    ghost predicate Armable()
      reads this
    {
      var r := ReadReceipt(files);
      && r.Some? && r.value.phase.Armed? && r.value.candidate.Some?
      && Stage(r.value.txn) in files
      && MarkerTemp(r.value.txn) !in files
    }

    /** Moves the original aside and puts the marked, empty candidate in its place. */
    method Start() returns (s: Status)
      requires Valid()
      modifies this`files
      ensures Valid() && Outcome() == old(Outcome())
      ensures Recoverable(old(files), files)
      ensures !s.Crash? ==> (s.Ok? <==> old(Armable()))
      ensures s.Ok? ==>
                && ReadReceipt(files).Some? && ReadReceipt(files).value.phase.Building?
                && !Displaced(files)
                && DirAt(files, Target).Some?
                && DirAt(files, Target).value.tree == map[]
                && DirAt(files, Target).value.marker == Some(ReadReceipt(files).value.txn)
                && DirAt(files, Backup(ReadReceipt(files).value.txn)) == before
    {
      var r := ReadReceipt(files);
      if r.None? {
        return Raise;
      }
      var v := r.value;
      :- DropScratch(ReceiptNext(v.txn), v);
      if !v.phase.Armed? || v.candidate.None? || Stage(v.txn) !in files
         || InoOf(DirAt(files, Stage(v.txn))) != v.candidate || MarkerTemp(v.txn) in files {
        return Raise;
      }
      :- WriteFile(MarkerTemp(v.txn), MarkerNode(v.txn));
      :- ReplaceReceipt(v.(phase := Building));
      s := Swap(v.(phase := Building));
    }

    /** The renames of `Start`, once the phase is durable. */
    method Swap(v: Receipt) returns (s: Status)
      requires Valid() && ReadReceipt(files) == Some(v) && v.phase.Building?
      requires Untouched(files, v.txn, before)
      requires Stage(v.txn) in files && MarkerTemp(v.txn) in files
      requires InoOf(DirAt(files, Stage(v.txn))) == v.candidate
      modifies this`files
      ensures Valid() && Outcome() == old(Outcome()) && ReadReceipt(files) == Some(v)
      ensures !s.Raise?
      ensures !Displaced(files)
      ensures s.Ok? ==>
                && !Displaced(files)
                && DirAt(files, Target).Some?
                && DirAt(files, Target).value.tree == map[]
                && DirAt(files, Target).value.marker == Some(v.txn)
                && DirAt(files, Backup(v.txn)) == before
    {
      if v.original.Some? {
        if InoOf(DirAt(files, Target)) != v.original || Backup(v.txn) in files {
          return Raise;
        }
        :- Rename(Target, Backup(v.txn));
      } else if Target in files {
        return Raise;
      }
      :- Rename(Stage(v.txn), Target);
      :- InstallMarker(v.txn);
      return Ok;
    }

    /** Renames the pending marker into the candidate directory. */
    method InstallMarker(t: Token) returns (s: Status)
      requires Target in files && files[Target].DirNode? && MarkerTemp(t) in files
      modifies this`files
      ensures s.Ok? ==> files == (old(files) - {MarkerTemp(t)})
                        [Target := DirNode(old(files)[Target].dir.(marker := Some(t)))]
      ensures !s.Ok? ==> s.Crash? && files == old(files)
    {
      if * { return Crash; }
      files := (files - {MarkerTemp(t)})[Target := DirNode(files[Target].dir.(marker := Some(t)))];
      return Ok;
    }

    /** The installer fills the candidate; it may even swap the directory for another. */
    method Build(d: Dir)
      requires Valid()
      requires ReadReceipt(files).Some? && ReadReceipt(files).value.phase.Building?
      requires Replaced(files, ReadReceipt(files).value.txn, before)
      modifies this`files
      ensures Valid() && Outcome() == old(Outcome())
      ensures files == old(files)[Target := DirNode(d)]
    {
      files := files[Target := DirNode(d)];
    }

    /** Removes a half-written file of the open transaction, if there is one. */
    method DropScratch(p: Path, v: Receipt) returns (s: Status)
      requires Valid() && ReadReceipt(files) == Some(v)
      requires p in {ReceiptNext(v.txn), MarkerTemp(v.txn)}
      modifies this`files
      ensures Valid() && Outcome() == old(Outcome())
      ensures !s.Raise?
      ensures files == old(files) || files == old(files) - {p}
      ensures s.Ok? ==> files == old(files) - {p}
    {
      if p !in files {
        return Ok;
      }
      :- Unlink(p);
      return Ok;
    }

    /** Removes a candidate directory that was never installed; only an empty one with the
        recorded inode is its own to remove. */
    method DropStage(v: Receipt) returns (s: Status)
      requires Valid() && ReadReceipt(files) == Some(v)
      modifies this`files
      ensures Valid() && Outcome() == old(Outcome())
      ensures !s.Raise?
      ensures files == old(files) || files == old(files) - {Stage(v.txn)}
      ensures s.Ok? ==> files == old(files) - {Stage(v.txn)}
    {
      if Stage(v.txn) in files {
        var d := DirAt(files, Stage(v.txn));
        if d.None? || d.value.tree != map[] || d.value.marker.Some?
           || (v.candidate.Some? && v.candidate != Some(d.value.ino)) {
          return Raise;
        }
        :- Unlink(Stage(v.txn));
      }
      return Ok;
    }

    /** Settles the transaction from its receipt alone: finishes a durable commit, rolls
        anything earlier back. */
    method Reconcile() returns (s: Status, verdict: Verdict)
      requires Valid()
      modifies this`files
      ensures Valid() && Outcome() == old(Outcome())
      ensures !s.Crash? ==> (s.Raise? <==> old(ReadReceipt(files)).None? || old(Displaced(files)))
      ensures s.Ok? ==> Settled(old(Outcome()))
      ensures old(ReadReceipt(files)).None? ==> files == old(files)
      ensures s.Ok? ==> (verdict.Installed? <==> old(ReadReceipt(files)).value.phase.Committed?)
      ensures ReadReceipt(files) == old(ReadReceipt(files))
              || Settled(old(Outcome()))
      ensures Displaced(files) == old(Displaced(files))
    {
      hide PhaseAgrees;
      verdict := RolledBack;
      var r := ReadReceipt(files);
      if r.None? {
        s := Raise;
        return;
      }
      var v := r.value;
      :- DropScratch(ReceiptNext(v.txn), v);
      :- DropScratch(MarkerTemp(v.txn), v);
      :- DropStage(v);
      if v.phase.Committed? {
        verdict := Installed;
        s := FinishCommit(v);
      } else {
        s := RollBack(v);
      }
    }

    method FinishCommit(v: Receipt) returns (s: Status)
      requires Valid() && ReadReceipt(files) == Some(v) && v.phase.Committed?
      requires files.Keys <= {Target, ReceiptPath, Backup(v.txn)}
      modifies this`files
      ensures Valid() && Outcome() == old(Outcome())
      ensures !s.Crash? ==> (s.Raise? <==> old(Displaced(files)))
      ensures s.Ok? ==> Settled(old(Outcome()))
      ensures ReadReceipt(files) == Some(v)
              || Settled(old(Outcome()))
      ensures Displaced(files) == old(Displaced(files))
    {
      if Target !in files || Some(files[Target].dir.ino) != v.candidate {
        return Raise;
      }
      if v.digest != Some(files[Target].dir.tree) || files[Target].dir.marker !in {None, Some(v.txn)} {
        return Raise;
      }
      if Backup(v.txn) in files {
        if v.original.None? || InoOf(DirAt(files, Backup(v.txn))) != v.original {
          return Raise;
        }
        :- RemoveTree(Backup(v.txn));
      }
      :- Put(Target, DirNode(files[Target].dir.(marker := None)));
      :- Unlink(ReceiptPath);
      return Ok;
    }

    method RollBack(v: Receipt) returns (s: Status)
      requires Valid() && ReadReceipt(files) == Some(v) && !v.phase.Committed?
      requires files.Keys <= {Target, ReceiptPath, Backup(v.txn)}
      modifies this`files
      ensures Valid() && Outcome() == old(Outcome())
      ensures !s.Crash? ==> (s.Raise? <==> old(Displaced(files)))
      ensures s.Ok? ==> Settled(old(Outcome()))
      ensures ReadReceipt(files) == Some(v)
              || Settled(old(Outcome()))
      ensures Displaced(files) == old(Displaced(files))
    {
      var backup := Backup(v.txn);
      if v.original.Some? {
        if backup in files {
          if InoOf(DirAt(files, backup)) != v.original {
            return Raise;
          }
          if Target in files {
            if v.candidate != Some(files[Target].dir.ino) {
              return Raise;
            }
            :- RemoveTree(Target);
          }
          :- Rename(backup, Target);
        } else if Target in files {
          if files[Target].dir.marker == Some(v.txn) || Some(files[Target].dir.ino) != v.original {
            return Raise;
          }
        } else {
          return Raise;
        }
      } else {
        if backup in files {
          return Raise;
        }
        if Target in files {
          if v.candidate != Some(files[Target].dir.ino) {
            return Raise;
          }
          :- RemoveTree(Target);
        }
      }
      :- Unlink(ReceiptPath);
      return Ok;
    }

    /** `Commit` will finish: the marked candidate is still the directory that was installed. */
    ghost predicate Committable()
      reads this
    {
      var r := ReadReceipt(files);
      && r.Some? && r.value.phase.Building?
      && DirAt(files, Target).Some? && DirAt(files, Target).value.marker == Some(r.value.txn)
      && ReceiptNext(r.value.txn) !in files
      && !Displaced(files)
    }

    /** Records the candidate's digest, then the committed phase, then settles. The rename
        that publishes the phase is the one step that changes the outcome. */
    method Commit() returns (s: Status)
      requires Valid()
      modifies this`files
      ensures Valid()
      ensures Recoverable(old(files), files)
      ensures !s.Crash? ==> (s.Ok? <==> old(Committable()))
      ensures s.Ok? ==> Settled(Some(old(files)[Target].dir.(marker := None)))
      ensures Outcome() == old(Outcome())
              || (old(DirAt(files, Target)).Some?
                  && Outcome() == Some(old(files)[Target].dir.(marker := None)))
    {
      var r := ReadReceipt(files);
      if r.None? || !r.value.phase.Building? {
        return Raise;
      }
      var v := r.value;
      if Target !in files || files[Target].dir.marker != Some(v.txn) {
        return Raise;
      }
      v := v.(digest := Some(files[Target].dir.tree));
      :- ReplaceReceipt(v);
      :- ReplaceReceipt(v.(phase := Committed));
      var verdict;
      s, verdict := Reconcile();
    }

    // ------------------------------------------------------------------
    // Whole runs

    /** Runs any script of commands, each of which may crash or refuse, and then recovers.
        `trail[i]` is the outcome the first `i` commands decided on, `seen[i]` the target the next
        one found and `ended[i]` how it ended: a commit alone changes the outcome, and only to
        that, and one that succeeded did. Unless an
        installer put another directory in the candidate's place, the recovery is refused only
        where there is nothing left to recover or where the first receipt was never completed. */
    method RunThenRecover(script: seq<Command>)
      returns (s: Status, ended: seq<Status>, ghost trail: seq<Option<Dir>>, ghost seen: seq<Option<Dir>>)
      requires Valid()
      modifies this
      ensures Valid()
      ensures |trail| == |script| + 1 && trail[0] == old(Outcome()) && Outcome() == trail[|script|]
      ensures |seen| == |ended| == |script|
      ensures forall i :: 0 <= i < |script| && script[i].DoCommit? && ended[i].Ok? ==>
        seen[i].Some? && trail[i + 1] == Some(seen[i].value.(marker := None))
      ensures forall i :: 0 <= i < |script| ==>
        trail[i + 1] == trail[i]
        || (script[i].DoCommit? && seen[i].Some? && trail[i + 1] == Some(seen[i].value.(marker := None)))
      ensures s.Ok? ==> Settled(trail[|script|])
      ensures s.Raise? ==> ReadReceipt(files).None? || Displaced(files)
      ensures !old(Displaced(files)) && KeepsCandidate(script, seen) ==>
        !Displaced(files) && (s.Raise? ==> Settled(trail[|script|]) || TornReceipt(files))
      ensures TornReceipt(files) ==> old(TornReceipt(files)) || exists i :: 0 <= i < |script| && script[i].DoBegin?
    {
      trail, seen, ended := [Outcome()], [], [];
      for i := 0 to |script|
        invariant Valid()
        invariant |trail| == i + 1 && trail[0] == old(Outcome()) && trail[i] == Outcome()
        invariant |seen| == |ended| == i
        invariant forall j :: 0 <= j < i && script[j].DoCommit? && ended[j].Ok? ==>
          seen[j].Some? && trail[j + 1] == Some(seen[j].value.(marker := None))
        invariant !old(Displaced(files)) && KeepsCandidate(script[..i], seen) ==> !Displaced(files)
        invariant TornReceipt(files) ==> old(TornReceipt(files)) || exists j :: 0 <= j < i && script[j].DoBegin?
        invariant forall j :: 0 <= j < i ==>
          trail[j + 1] == trail[j]
          || (script[j].DoCommit? && seen[j].Some? && trail[j + 1] == Some(seen[j].value.(marker := None)))
      {
        seen := seen + [DirAt(files, Target)];
        var e := Perform(script[i]);
        ended := ended + [e];
        trail := trail + [Outcome()];
      }
      assert script[..|script|] == script;
      var verdict;
      s, verdict := Reconcile();
    }

    method Perform(c: Command) returns (s: Status)
      requires Valid()
      modifies this
      ensures Valid()
      ensures !Displaces(c, old(DirAt(files, Target))) ==>
        (Displaced(files) ==> old(Displaced(files)))
      ensures !c.DoBegin? ==> (TornReceipt(files) ==> old(TornReceipt(files)))
      ensures Outcome() == old(Outcome())
              || (c.DoCommit? && old(DirAt(files, Target)).Some?
                  && Outcome() == Some(old(DirAt(files, Target)).value.(marker := None)))
      ensures c.DoCommit? && s.Ok? ==>
        old(DirAt(files, Target)).Some? && Outcome() == Some(old(DirAt(files, Target)).value.(marker := None))
    {
      var verdict;
      s := Raise;
      match c {
        case DoBegin(t) =>
          if DirAt(files, Target).None? || DirAt(files, Target).value.marker != Some(t) {
            s := Begin(t);
          }
        case DoStart => s := Start();
        case DoBuild(d) =>
          var r := ReadReceipt(files);
          if r.Some? && r.value.phase.Building? && Target in files && Stage(r.value.txn) !in files
             && (r.value.original.None? || Backup(r.value.txn) in files) {
            Build(d);
            s := Ok;
          }
        case DoCommit => s := Commit();
        case DoRecover => s, verdict := Reconcile();
      }
    }
  }
}
