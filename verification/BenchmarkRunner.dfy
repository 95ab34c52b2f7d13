/** The benchmark runner (src/vq/benchmark_runner.py:203-456).

    Two files are durable, the results and the journal, written in that order; the queue's jobs
    are durable on their own. A process may die, or a write may fail, between any two of them. */
module BenchmarkRunner {
  import opened Common

  /** What a result row is filed under. */
  datatype RunKey = RunKey(workload: string, variant: string, nodeClass: string, block: nat)

  datatype Planned = Planned(sequence: nat, key: RunKey) {
    function Class(): string {
      key.nodeClass
    }
  }

  datatype Entry = Submitting | Accepted | Recorded | Missing

  type Journal = map<nat, Entry>

  datatype Row = Row(key: RunKey, status: string)

  predicate Finished(e: Entry) {
    e == Recorded || e == Missing
  }

  /** Each planned run has a sequence number and a result key of its own. */
  ghost predicate PlanOk(order: seq<Planned>) {
    forall i, k :: 0 <= i < k < |order| ==>
      order[i].sequence != order[k].sequence && order[i].key != order[k].key
  }

  // --------------------------------------------------------------------
  // What the records show

  /** A run is started only when every earlier run of its class is finished. */
  ghost predicate Lanes(order: seq<Planned>, journal: Journal) {
    forall i, k :: 0 <= i < k < |order| && order[i].Class() == order[k].Class()
                   && order[k].sequence in journal ==>
      order[i].sequence in journal && Finished(journal[order[i].sequence])
  }

  function RowsOf(rows: seq<Row>, key: RunKey): nat {
    if rows == [] then 0
    else RowsOf(rows[..|rows| - 1], key) + (if rows[|rows| - 1].key == key then 1 else 0)
  }

  /** Every recorded run has exactly one row, and no run more than one. */
  ghost predicate Rows(order: seq<Planned>, journal: Journal, rows: seq<Row>) {
    && (forall key :: RowsOf(rows, key) <= 1)
    && (forall i :: 0 <= i < |order| && order[i].sequence in journal && journal[order[i].sequence] == Recorded ==>
          RowsOf(rows, order[i].key) == 1)
  }

  /** The jobs of the queue by sequence, and whether each has ended. */
  type Jobs = map<nat, bool>

  /** Nothing runs, or may yet arrive, that the journal on disk does not name; what it calls
      finished has ended. */
  ghost predicate Backed(journal: Journal, jobs: Jobs, sent: set<nat>) {
    && jobs.Keys <= journal.Keys && sent <= journal.Keys
    && (forall s :: s in journal && journal[s] != Submitting ==> s in jobs)
    && (forall s :: s in journal && Finished(journal[s]) ==> jobs[s])
  }

  predicate JobsAdvance(jobs: Jobs, jobs': Jobs, sent: set<nat>) {
    && (forall s :: s in jobs ==> s in jobs' && (jobs[s] ==> jobs'[s]))
    && (forall s :: s in jobs' ==> s in jobs || s in sent)
  }

  /** Two unfinished runs of one class are the same run. */
  lemma ClassExclusive(order: seq<Planned>, journal: Journal, jobs: Jobs, sent: set<nat>, i: nat, k: nat)
    requires Lanes(order, journal) && Backed(journal, jobs, sent)
    requires i < |order| && k < |order| && order[i].Class() == order[k].Class()
    requires order[i].sequence in jobs && !jobs[order[i].sequence]
    requires order[k].sequence in jobs && !jobs[order[k].sequence]
    ensures i == k
  {
    assert order[i].sequence in journal && order[k].sequence in journal;
  }

  /** The finished runs of a class are a prefix of its order. */
  lemma FinishedPrefix(order: seq<Planned>, journal: Journal, i: nat, k: nat)
    requires Lanes(order, journal) && i < k < |order| && order[i].Class() == order[k].Class()
    requires order[k].sequence in journal && Finished(journal[order[k].sequence])
    ensures order[i].sequence in journal && Finished(journal[order[i].sequence])
  {
  }

  function Without(rows: seq<Row>, key: RunKey): seq<Row> {
    if rows == [] then []
    else
      var rest := Without(rows[..|rows| - 1], key);
      if rows[|rows| - 1].key == key then rest else rest + [rows[|rows| - 1]]
  }

  lemma {:induction false} WithoutRows(rows: seq<Row>, key: RunKey, other: RunKey)
    ensures RowsOf(Without(rows, key), other) == if other == key then 0 else RowsOf(rows, other)
  {
    if rows != [] {
      var front, last := rows[..|rows| - 1], rows[|rows| - 1];
      WithoutRows(front, key, other);
      assert (Without(front, key) + [last])[..|Without(front, key)|] == Without(front, key);
    }
  }

  /** A row replaced by its key: that run has exactly one, the others what they had. */
  lemma ReplacedRow(rows: seq<Row>, row: Row, other: RunKey)
    ensures RowsOf(Without(rows, row.key) + [row], other) == if other == row.key then 1 else RowsOf(rows, other)
  {
    WithoutRows(rows, row.key, other);
    var rest := Without(rows, row.key);
    assert (rest + [row])[..|rest|] == rest;
  }

  lemma SequenceIndex(order: seq<Planned>, i: nat, k: nat)
    requires PlanOk(order) && i < |order| && k < |order|
    ensures order[i].sequence == order[k].sequence ==> i == k
    ensures order[i].key == order[k].key ==> i == k
  {
    if i < k { } else if k < i { }
  }

  // --------------------------------------------------------------------
  // The runner

  /** How one run's turn ended: in order, at a crash, with a queue that could not answer this
      pass, or with a problem someone must look at. */
  datatype Ended = Fine | Crashed | AskAgain | Held

  function EndOf(s: Status): Ended {
    match s
    case Ok => Fine
    case Crash => Crashed
    case Raise => Held
  }

  class Runner {
    const order: seq<Planned>
    /** In memory. */
    var journal: Journal
    var results: seq<Row>
    var problems: set<nat>
    var transient: set<nat>
    /** On disk. */
    var journalFile: Journal
    var resultsFile: seq<Row>
    /** The queue, and what was sent to it. */
    var jobs: Jobs
    var sent: set<nat>

    /** What is on disk and in the queue, whatever process is running. */
    ghost predicate Durable()
      reads this
    {
      && PlanOk(order) && Lanes(order, journalFile)
      && Rows(order, journalFile, resultsFile) && Backed(journalFile, jobs, sent)
    }

    /** What is in memory agrees, and runs ahead of the disk only for runs held by a problem. */
    ghost predicate Holds(held: set<nat>)
      reads this
    {
      && Durable() && Lanes(order, journal) && Rows(order, journal, results) && Rows(order, journalFile, results)
      && Backed(journal, jobs, sent) && journalFile.Keys <= journal.Keys
      && (forall s :: s in journal && s !in held ==> s in journalFile)
    }

    ghost predicate Valid()
      reads this
    {
      Holds(problems)
    }

    constructor (order: seq<Planned>)
      requires PlanOk(order)
      ensures Valid() && this.order == order && problems == {} && jobs == map[]
    {
      this.order := order;
      journal, journalFile, jobs := map[], map[], map[];
      results, resultsFile := [], [];
      problems, transient, sent := {}, {}, {};
    }

    /** Results first, then the journal; either write may fail, and the process may die. */
    method Save(ghost held: set<nat>) returns (s: Status)
      requires Holds(held)
      modifies this`journalFile, this`resultsFile
      ensures Holds(held) && (s == Ok ==> Holds({}) && journalFile == journal && resultsFile == results)
    {
      hide Lanes, Rows, Backed;
      if * { return Crash; }
      if * { return Raise; }
      resultsFile := results;
      if * { return Crash; }
      if * { return Raise; }
      journalFile := journal;
      s := Ok;
    }

    /** The queue and the network go on. */
    method Others(ghost held: set<nat>)
      requires Holds(held)
      modifies this`jobs
      ensures Holds(held) && JobsAdvance(old(jobs), jobs, sent)
    {
      hide Lanes, Rows;
      var later: Jobs := *;
      if JobsAdvance(jobs, later, sent) { jobs := later; }
    }

    /** Open the run directory again. The check that every recorded run has its row never
        refuses what an interrupted save left. */
    method Reopen() returns (ok: bool)
      requires Durable()
      modifies this`journal, this`results, this`problems, this`transient
      ensures ok && Valid() && journal == journalFile && results == resultsFile && problems == {}
    {
      hide Lanes, Backed;
      journal, results, problems, transient := journalFile, resultsFile, {}, {};
      ok := forall i :: 0 <= i < |order| && order[i].sequence in journal && journal[order[i].sequence] == Recorded ==>
        RowsOf(results, order[i].key) != 0;
    }

    /** Write an entry in memory, with its row if it has one, then save. */
    method Enter(n: nat, e: Entry, row: Option<Row>) returns (s: Status)
      requires Valid() && n < |order| && ClassClear(order, journal, n)
      requires order[n].sequence in journal && Finished(journal[order[n].sequence]) ==> Finished(e)
      requires e != Submitting ==> order[n].sequence in jobs
      requires Finished(e) ==> jobs[order[n].sequence]
      requires e == Recorded <==> row.Some?
      requires row.Some? ==> row.value.key == order[n].key
      modifies this`journal, this`results, this`journalFile, this`resultsFile
      ensures Holds(problems + {order[n].sequence}) && journal == old(journal)[order[n].sequence := e]
      ensures s == Ok ==> Valid() && order[n].sequence in journalFile
    {
      hide Lanes, Rows, Backed, ClassClear;
      var q := order[n].sequence;
      EnterLane(order, journal, n, e);
      EnterRows(order, journal, journalFile, results, n, e, row);
      EnterBacked(journal, jobs, sent, q, e);
      if row.Some? { results := Without(results, row.value.key) + [row.value]; }
      journal := journal[q := e];
      s := Save(problems + {q});
    }

    /** Start the n-th planned run, or ask for it again: recorded first, then sent. */
    method Submit(n: nat) returns (e: Ended)
      requires Valid() && n < |order| && order[n].sequence !in problems && ClassClear(order, journal, n)
      requires order[n].sequence in journal ==> journal[order[n].sequence] == Submitting
      modifies this`journal, this`results, this`journalFile, this`resultsFile, this`sent, this`jobs
      ensures Holds(problems + {order[n].sequence}) && (e in {Fine, AskAgain} ==> Valid())
      ensures Elsewhere(old(journal), journal, order[n].sequence)
      ensures e == Fine ==> order[n].sequence in journal && journal[order[n].sequence] == Accepted
      ensures e in {Fine, AskAgain} ==> order[n].sequence in sent && order[n].sequence in journalFile
      ensures sent <= old(sent) + {order[n].sequence}
    {
      hide Lanes, Rows, Backed, ClassClear;
      var q := order[n].sequence;
      if * { return Held; }
      if q !in journal {
        var s := Enter(n, Submitting, None);
        if s != Ok { return EndOf(s); }
        ClassClearOthers(order, old(journal), n, Submitting);
      }
      SentBacked(journal, jobs, sent, q);
      SentBacked(journalFile, jobs, sent, q);
      sent := sent + {q};
      Others(problems);
      if * { return Held; }
      if * { return AskAgain; }
      if q !in jobs { return AskAgain; }
      var s := Enter(n, Accepted, None);
      e := EndOf(s);
    }

    /** See whether the n-th run ended; if so, file its row or leave it missing. */
    method Finish(n: nat) returns (e: Ended, moved: bool)
      requires Valid() && n < |order| && ClassClear(order, journal, n)
      requires order[n].sequence in journal && journal[order[n].sequence] == Accepted
      modifies this`journal, this`results, this`journalFile, this`resultsFile, this`jobs
      ensures Holds(problems + {order[n].sequence}) && (e in {Fine, AskAgain} ==> Valid())
      ensures Elsewhere(old(journal), journal, order[n].sequence)
      ensures e == Fine && moved ==> order[n].sequence in journal && Finished(journal[order[n].sequence])
      ensures e == Fine && !moved ==> journal == old(journal)
    {
      hide Lanes, Rows, ClassClear;
      var q := order[n].sequence;
      Others(problems);
      if * { return Held, false; }
      if * { return AskAgain, false; }
      if !jobs[q] { return Fine, false; }
      moved := true;
      var usable: bool := *;
      var s;
      if usable {
        var status: string := *;
        s := Enter(n, Recorded, Some(Row(order[n].key, status)));
      } else {
        s := Enter(n, Missing, None);
      }
      e := EndOf(s);
    }

    /** Submit or finish the n-th run, or set it aside: for this pass, or until it is opened again. */
    method TryRun(n: nat) returns (crashed: bool, changed: bool, done: bool, again: bool)
      requires Valid() && n < |order| && order[n].sequence !in problems && ClassClear(order, journal, n)
      requires !(order[n].sequence in journal && Finished(journal[order[n].sequence]))
      modifies this
      ensures Durable() && (!crashed ==> Valid()) && Elsewhere(old(journal), journal, order[n].sequence)
      ensures transient == old(transient) + (if again then {order[n].sequence} else {})
      ensures old(problems) <= problems <= old(problems) + {order[n].sequence}
      ensures changed ==> Differs(old(journal), journal, order[n].sequence)
      ensures done ==> changed && order[n].sequence in journal && Finished(journal[order[n].sequence])
      ensures !crashed && !changed ==> Waits(order[n].sequence, journal, problems + transient)
    {
      hide Lanes, Rows, Backed, ClassClear;
      var q := order[n].sequence;
      var e;
      done := false;
      if q !in journal || journal[q] == Submitting {
        e := Submit(n);
        changed := e == Fine;
      } else {
        var moved;
        e, moved := Finish(n);
        done := e == Fine && moved;
        changed := done;
      }
      crashed, again := e == Crashed, e == AskAgain;
      if again { transient := transient + {q}; }
      if e == Held { problems := problems + {q}; }
    }

    /** One pass: finish what ended, then start each class's next run. After a pass that changed
        nothing, each class waits for a run in flight, or is stopped at a problem. `asked` is what
        the pass could not get an answer about, and only that is set aside for it. */
    method Step() returns (crashed: bool, progressed: bool, ghost asked: set<nat>)
      requires Valid()
      modifies this
      ensures Durable() && (!crashed ==> Valid()) && transient == asked
      ensures progressed ==> exists i :: 0 <= i < |order| && Differs(old(journal), journal, order[i].sequence)
      ensures crashed ==> exists i :: old(Open(i))
      ensures !crashed && !progressed ==> AllWait(order, journal, problems + transient, |order|)
    {
      hide Lanes, Rows, Backed, ClassClear, Cleared, Elsewhere, AllWait, LanesWait;
      transient, asked := {}, {};
      progressed, crashed := false, false;
      var busy: set<string> := {};
      ClearedStart(order, journal);
      WaitStart(order, journal, problems + transient);
      for n := 0 to |order|
        invariant Valid() && Cleared(order, journal, busy, n) && transient == asked
        invariant forall i :: n <= i < |order| ==> !Differs(old(journal), journal, order[i].sequence)
        invariant !crashed && old(problems) <= problems
        invariant progressed ==> exists i :: 0 <= i < n && Differs(old(journal), journal, order[i].sequence)
        invariant progressed || AllWait(order, journal, problems + transient, n)
        invariant progressed || LanesWait(order, journal, problems + transient, busy, n)
      {
        var q, lane := order[n].sequence, order[n].Class();
        ghost var before, stopped := journal, problems + transient;
        if q in problems {
          ClearedStep(order, before, journal, busy, busy + {lane}, n);
          if !progressed { WaitHere(order, journal, journal, stopped, stopped, busy, busy + {lane}, n); }
          busy := busy + {lane};
        } else if (q in journal && Finished(journal[q])) || lane in busy {
          ClearedStep(order, before, journal, busy, busy, n);
          if !progressed { WaitBehind(order, journal, stopped, busy, n); }
        } else {
          ClearHere(order, journal, busy, n);
          var changed, done, again;
          assert old(Open(n));
          label tried:
          crashed, changed, done, again := TryRun(n);
          if again { asked := asked + {q}; }
          OthersDiffer(order, old(journal), old@tried(journal), journal, n);
          progressed := progressed || changed;
          if crashed { return; }
          var busy' := if done then busy else busy + {lane};
          ClearedStep(order, before, journal, busy, busy', n);
          if !progressed { WaitHere(order, before, journal, stopped, problems + transient, busy, busy', n); }
          busy := busy';
        }
      }
    }

    /** Pass until every run is recorded or nothing more can move, for at most the given number
        of passes. When it returns by itself, every run is finished, or a run of its class that
        comes no later is stopped at a problem; when it is cut off, some run is neither. */
    method Run(once: bool, passes: nat) returns (crashed: bool, ended: bool)
      requires Valid()
      modifies this
      ensures Durable() && (!crashed ==> Valid())
      ensures ended && !crashed && !once ==> AllSettled(order, journal, problems)
      ensures !ended && !crashed && passes > 0 ==> !once && exists i :: Open(i)
      ensures passes == 0 ==> !crashed && !ended
    {
      hide Lanes, Rows, Backed, AllWait, Unfinished;
      crashed, ended := false, false;
      for n := 0 to passes
        invariant Valid() && (n > 0 ==> !once && exists i :: Open(i))
      {
        var progressed;
        ghost var asked;
        crashed, progressed, asked := Step();
        if crashed { return; }
        var pending := exists i :: 0 <= i < |order| && Pending(order[i].sequence, journal, problems);
        var inFlight := exists i :: 0 <= i < |order| && InFlight(order[i].sequence, journal, problems);
        if once || !pending || (!progressed && !inFlight && transient == {}) {
          ended := true;
          if !pending {
            NoneIsPending(order, journal, problems);
          } else if !once {
            NoneMoves(order, journal, problems, transient);
          }
          return;
        }
        ghost var i :| 0 <= i < |order| && Pending(order[i].sequence, journal, problems);
        assert Open(i);
      }
    }

    /** Any history of passes and reopenings, each of which may crash anywhere: a class never has
        two unfinished runs, its finished runs are a prefix of its order, every recorded run has
        exactly one row, and reopening never refuses. */
    method AnyHistory(turns: nat)
      requires Valid()
      modifies this
      ensures Valid()
      ensures forall i, k :: Unfinished(i) && Unfinished(k) && order[i].Class() == order[k].Class() ==> i == k
      ensures forall i, k :: 0 <= i < k < |order| && order[i].Class() == order[k].Class() && Done(k) ==> Done(i)
      ensures forall i :: 0 <= i < |order| && Done(i) && journal[order[i].sequence] == Recorded ==>
        RowsOf(results, order[i].key) == 1
    {
      hide Lanes, Backed, ClassClear, Cleared;
      var left := turns;
      while left > 0
        invariant Valid()
      {
        if {
          case true =>
            var crashed, progressed, asked := Step();
            if crashed {
              var ok := Reopen();
            }
          case true => var ok := Reopen();
          case true => Others(problems);
        }
        left := left - 1;
      }
      forall i, k | Unfinished(i) && Unfinished(k) && order[i].Class() == order[k].Class() ensures i == k {
        ClassExclusive(order, journal, jobs, sent, i, k);
      }
      forall i, k | 0 <= i < k < |order| && order[i].Class() == order[k].Class() && Done(k) ensures Done(i) {
        FinishedPrefix(order, journal, i, k);
      }
    }

    ghost predicate Unfinished(i: int)
      reads this
    {
      0 <= i < |order| && order[i].sequence in jobs && !jobs[order[i].sequence]
    }

    /** Neither finished nor stopped at a problem of its own. */
    ghost predicate Open(i: int)
      reads this
    {
      0 <= i < |order| && !Done(i) && order[i].sequence !in problems
    }

    ghost predicate Done(i: int)
      reads this
    {
      0 <= i < |order| && order[i].sequence in journal && Finished(journal[order[i].sequence])
    }
  }

  /** The journal says something else about the run, or something new. */
  ghost predicate Differs(before: Journal, after: Journal, q: nat) {
    (q in before) != (q in after) || (q in before && q in after && before[q] != after[q])
  }

  lemma OthersDiffer(order: seq<Planned>, start: Journal, before: Journal, after: Journal, n: nat)
    requires PlanOk(order) && n < |order| && Elsewhere(before, after, order[n].sequence)
    ensures forall i :: 0 <= i < |order| && i != n ==>
      (Differs(start, after, order[i].sequence) <==> Differs(start, before, order[i].sequence))
  {
  }

  predicate Pending(q: nat, journal: Journal, problems: set<nat>) {
    !(q in journal && Finished(journal[q])) && q !in problems
  }

  predicate InFlight(q: nat, journal: Journal, problems: set<nat>) {
    q in journal && journal[q] == Accepted && q !in problems
  }

  /** In flight, or set aside. */
  ghost predicate Waits(q: nat, journal: Journal, aside: set<nat>) {
    q in aside || (q in journal && journal[q] == Accepted)
  }

  /** A run of this class, at this place or before it, waits. */
  ghost predicate WaitsBy(order: seq<Planned>, journal: Journal, aside: set<nat>, lane: string, i: int) {
    exists k :: 0 <= k <= i && k < |order| && order[k].Class() == lane && Waits(order[k].sequence, journal, aside)
  }

  /** Each of the first n runs is finished, or a run of its class waits no later. */
  ghost predicate AllWait(order: seq<Planned>, journal: Journal, aside: set<nat>, n: nat) {
    n <= |order| && forall i :: 0 <= i < n ==>
      (order[i].sequence in journal && Finished(journal[order[i].sequence]))
      || WaitsBy(order, journal, aside, order[i].Class(), i)
  }

  /** In each busy class one of the first n runs waits. */
  ghost predicate LanesWait(order: seq<Planned>, journal: Journal, aside: set<nat>, busy: set<string>, n: nat) {
    forall lane :: lane in busy ==> WaitsBy(order, journal, aside, lane, n - 1)
  }

  /** Every run is finished, or a run of its class that comes no later is stopped. */
  ghost predicate AllSettled(order: seq<Planned>, journal: Journal, problems: set<nat>) {
    forall i :: 0 <= i < |order| ==>
      (order[i].sequence in journal && Finished(journal[order[i].sequence]))
      || StoppedBy(order, problems, order[i].Class(), i)
  }

  ghost predicate StoppedBy(order: seq<Planned>, problems: set<nat>, lane: string, i: int) {
    exists k :: 0 <= k <= i && k < |order| && order[k].Class() == lane && order[k].sequence in problems
  }

  lemma WaitStart(order: seq<Planned>, journal: Journal, aside: set<nat>)
    ensures AllWait(order, journal, aside, 0) && LanesWait(order, journal, aside, {}, 0)
  {
  }

  /** What waits goes on waiting while only a later run's entry changes. */
  lemma WaitsStands(order: seq<Planned>, before: Journal, after: Journal, aside: set<nat>, aside': set<nat>,
                    lane: string, i: int, n: nat)
    requires PlanOk(order) && i < n < |order| && aside <= aside' && WaitsBy(order, before, aside, lane, i)
    requires before == after || Elsewhere(before, after, order[n].sequence)
    ensures WaitsBy(order, after, aside', lane, i)
  {
    var k :| 0 <= k <= i && k < |order| && order[k].Class() == lane && Waits(order[k].sequence, before, aside);
    SequenceIndex(order, k, n);
    assert Waits(order[k].sequence, after, aside');
  }

  lemma WaitsLater(order: seq<Planned>, journal: Journal, aside: set<nat>, lane: string, i: int, n: int)
    requires i <= n && WaitsBy(order, journal, aside, lane, i)
    ensures WaitsBy(order, journal, aside, lane, n)
  {
    var k :| 0 <= k <= i && k < |order| && order[k].Class() == lane && Waits(order[k].sequence, journal, aside);
    assert k <= n;
  }

  /** The n-th run was tried, or is stopped: it is finished, or waits itself. */
  lemma WaitHere(order: seq<Planned>, before: Journal, after: Journal, aside: set<nat>, aside': set<nat>,
                 busy: set<string>, busy': set<string>, n: nat)
    requires PlanOk(order) && n < |order| && aside <= aside' && AllWait(order, before, aside, n)
    requires LanesWait(order, before, aside, busy, n) && busy' <= busy + {order[n].Class()}
    requires before == after || Elsewhere(before, after, order[n].sequence)
    requires Waits(order[n].sequence, after, aside')
    ensures AllWait(order, after, aside', n + 1) && LanesWait(order, after, aside', busy', n + 1)
  {
    hide Waits, WaitsBy;
    WaitsHere(order, after, aside', n);
    forall i | 0 <= i < n
      ensures (order[i].sequence in after && Finished(after[order[i].sequence]))
              || WaitsBy(order, after, aside', order[i].Class(), i)
    {
      SequenceIndex(order, i, n);
      if !(order[i].sequence in before && Finished(before[order[i].sequence])) {
        WaitsStands(order, before, after, aside, aside', order[i].Class(), i, n);
      }
    }
    forall lane | lane in busy' ensures WaitsBy(order, after, aside', lane, n) {
      if lane != order[n].Class() {
        WaitsStands(order, before, after, aside, aside', lane, n - 1, n);
        WaitsLater(order, after, aside', lane, n - 1, n);
      }
    }
  }

  lemma WaitsHere(order: seq<Planned>, journal: Journal, aside: set<nat>, n: nat)
    requires n < |order| && Waits(order[n].sequence, journal, aside)
    ensures WaitsBy(order, journal, aside, order[n].Class(), n)
  {
  }

  /** The n-th run is finished, or behind one that waits. */
  lemma WaitBehind(order: seq<Planned>, journal: Journal, aside: set<nat>, busy: set<string>, n: nat)
    requires n < |order| && AllWait(order, journal, aside, n) && LanesWait(order, journal, aside, busy, n)
    requires (order[n].sequence in journal && Finished(journal[order[n].sequence])) || order[n].Class() in busy
    ensures AllWait(order, journal, aside, n + 1) && LanesWait(order, journal, aside, busy, n + 1)
  {
    hide WaitsBy;
    forall lane | lane in busy ensures WaitsBy(order, journal, aside, lane, n) {
      WaitsLater(order, journal, aside, lane, n - 1, n);
    }
  }

  lemma NoneIsPending(order: seq<Planned>, journal: Journal, problems: set<nat>)
    requires !exists i :: 0 <= i < |order| && Pending(order[i].sequence, journal, problems)
    ensures AllSettled(order, journal, problems)
  {
    forall i | 0 <= i < |order| && !(order[i].sequence in journal && Finished(journal[order[i].sequence]))
      ensures StoppedBy(order, problems, order[i].Class(), i)
    {
      assert !Pending(order[i].sequence, journal, problems);
    }
  }

  lemma NoneMoves(order: seq<Planned>, journal: Journal, problems: set<nat>, transient: set<nat>)
    requires AllWait(order, journal, problems + transient, |order|) && transient == {}
    requires !exists i :: 0 <= i < |order| && InFlight(order[i].sequence, journal, problems)
    ensures AllSettled(order, journal, problems)
  {
    forall i | 0 <= i < |order| && !(order[i].sequence in journal && Finished(journal[order[i].sequence]))
      ensures StoppedBy(order, problems, order[i].Class(), i)
    {
      var k :| 0 <= k <= i && order[k].Class() == order[i].Class()
               && Waits(order[k].sequence, journal, problems + transient);
      assert !InFlight(order[k].sequence, journal, problems);
    }
  }

  /** Only this run's entry differs. */
  ghost predicate Elsewhere(before: Journal, after: Journal, q: nat) {
    forall s :: s != q ==> (s in before <==> s in after) && (s in before ==> after[s] == before[s])
  }

  /** Of the first n runs, each one's class is busy or the run is finished. */
  ghost predicate Cleared(order: seq<Planned>, journal: Journal, busy: set<string>, n: nat) {
    n <= |order| && forall i :: 0 <= i < n ==>
      order[i].Class() in busy || (order[i].sequence in journal && Finished(journal[order[i].sequence]))
  }

  lemma ClearedStart(order: seq<Planned>, journal: Journal)
    ensures Cleared(order, journal, {}, 0)
  {
  }

  lemma ClearedStep(order: seq<Planned>, before: Journal, after: Journal, busy: set<string>, busy': set<string>, n: nat)
    requires PlanOk(order) && Cleared(order, before, busy, n) && n < |order| && busy <= busy'
    requires before == after || Elsewhere(before, after, order[n].sequence)
    requires order[n].Class() in busy' || (order[n].sequence in after && Finished(after[order[n].sequence]))
    ensures Cleared(order, after, busy', n + 1)
  {
    forall i | 0 <= i < n ensures order[i].sequence != order[n].sequence { SequenceIndex(order, i, n); }
  }

  lemma ClearHere(order: seq<Planned>, journal: Journal, busy: set<string>, n: nat)
    requires Cleared(order, journal, busy, n) && n < |order| && order[n].Class() !in busy
    ensures ClassClear(order, journal, n)
  {
  }

  /** Every earlier run of the n-th run's class is finished. */
  ghost predicate ClassClear(order: seq<Planned>, journal: Journal, n: nat)
    requires n < |order|
  {
    forall i :: 0 <= i < n && order[i].Class() == order[n].Class() ==>
      order[i].sequence in journal && Finished(journal[order[i].sequence])
  }

  lemma EnterLane(order: seq<Planned>, journal: Journal, n: nat, e: Entry)
    requires PlanOk(order) && Lanes(order, journal) && n < |order| && ClassClear(order, journal, n)
    requires order[n].sequence in journal && Finished(journal[order[n].sequence]) ==> Finished(e)
    ensures Lanes(order, journal[order[n].sequence := e])
  {
    var journal' := journal[order[n].sequence := e];
    forall i, k | 0 <= i < k < |order| && order[i].Class() == order[k].Class() && order[k].sequence in journal'
      ensures order[i].sequence in journal' && Finished(journal'[order[i].sequence])
    {
      SequenceIndex(order, k, n);
      SequenceIndex(order, i, n);
    }
  }

  lemma ClassClearOthers(order: seq<Planned>, journal: Journal, n: nat, e: Entry)
    requires PlanOk(order) && n < |order| && ClassClear(order, journal, n)
    ensures ClassClear(order, journal[order[n].sequence := e], n)
  {
    forall i | 0 <= i < n ensures order[i].sequence != order[n].sequence { SequenceIndex(order, i, n); }
  }

  lemma EnterRows(order: seq<Planned>, journal: Journal, journalFile: Journal, rows: seq<Row>, n: nat, e: Entry,
                  row: Option<Row>)
    requires PlanOk(order) && Rows(order, journal, rows) && Rows(order, journalFile, rows) && n < |order|
    requires (e == Recorded <==> row.Some?) && (row.Some? ==> row.value.key == order[n].key)
    ensures var rows' := if row.Some? then Without(rows, row.value.key) + [row.value] else rows;
            Rows(order, journal[order[n].sequence := e], rows') && Rows(order, journalFile, rows')
  {
    if row.Some? {
      forall key
        ensures RowsOf(Without(rows, row.value.key) + [row.value], key)
                == if key == row.value.key then 1 else RowsOf(rows, key)
      {
        ReplacedRow(rows, row.value, key);
      }
    }
    forall i | 0 <= i < |order| ensures order[i].sequence == order[n].sequence ==> i == n {
      SequenceIndex(order, i, n);
    }
  }

  lemma EnterBacked(journal: Journal, jobs: Jobs, sent: set<nat>, q: nat, e: Entry)
    requires Backed(journal, jobs, sent) && (e != Submitting ==> q in jobs) && (Finished(e) ==> jobs[q])
    ensures Backed(journal[q := e], jobs, sent)
  {
  }

  lemma SentBacked(journal: Journal, jobs: Jobs, sent: set<nat>, q: nat)
    requires Backed(journal, jobs, sent) && q in journal
    ensures Backed(journal, jobs, sent + {q})
  {
  }
}
