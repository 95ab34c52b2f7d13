/** Passes, runs and retries of the controller (src/vq/campaign_controller.py:775-834, 890-912). */
module CampaignRun {
  import opened Common
  import opened CampaignGraph
  import opened CampaignStatus
  import opened CampaignJournal
  import opened CampaignController
  import opened CampaignCleanup

  // --------------------------------------------------------------------
  // From a standing to what its action needs

  lemma ReadyHolds(c: Campaign, g: Groups, status: map<string, Standing>, id: string)
    requires Closed(c.nodes) && c.nodes.Keys <= g.Keys && IsStatus(c, g, status) && id in c.nodes
    requires status[id] == Ready
    ensures g[id] == []
    ensures forall d :: d in Edges(c.nodes[id]) ==> d in g && EdgeHeld(g[d], Edges(c.nodes[id])[d])
  {
    hide Edges, Closed, InputsProblem;
    assert status[id] == StandingOf(c, g, status, id);
    forall d | d in Edges(c.nodes[id]) ensures d in g && EdgeHeld(g[d], Edges(c.nodes[id])[d]) {
      assert EdgeVerdict(Edges(c.nodes[id])[d], status[d]) == Met;
      MetHolds(c, g, status, d, Edges(c.nodes[id])[d]);
    }
  }

  lemma MetHolds(c: Campaign, g: Groups, status: map<string, Standing>, d: string, onSuccess: bool)
    requires Closed(c.nodes) && c.nodes.Keys <= g.Keys && IsStatus(c, g, status) && d in status
    requires EdgeVerdict(onSuccess, status[d]) == Met
    ensures EdgeHeld(g[d], onSuccess)
  {
    hide Edges, Closed, InputsProblem, HasVerdict;
    assert status[d] == StandingOf(c, g, status, d);
    assert g[d] != [] && Terminal(g[d][|g[d]| - 1].phase);
  }

  lemma StartedShows(c: Campaign, g: Groups, status: map<string, Standing>, id: string)
    requires Closed(c.nodes) && c.nodes.Keys <= g.Keys && IsStatus(c, g, status) && id in c.nodes
    requires status[id] in {Doubtful, Active, Done}
    ensures g[id] != [] && status[id] == StartedStanding(g[id][|g[id]| - 1].phase)
  {
    hide Edges, Closed, InputsProblem, HasVerdict;
    assert status[id] == StandingOf(c, g, status, id);
  }

  // --------------------------------------------------------------------
  // A submission that was recorded but not confirmed

  /** A ready node that becomes doubtful changes no other node's standing: both still have to be
      waited for, and neither offers anything. */
  lemma BegunStatus(c: Campaign, g: Groups, g': Groups, status: map<string, Standing>, id: string)
    requires WellFormed(c) && c.nodes.Keys <= g.Keys && IsStatus(c, g, status) && id in c.nodes
    requires status[id] == Ready && Begun(g, g', id)
    ensures c.nodes.Keys <= g'.Keys && IsStatus(c, g', status[id := Doubtful])
  {
    hide Edges, Sequenced, StandingOf, InputsDeclared;
    var a: Attempt :| a.phase == Submitting && g' == g[id := [a]];
    var status' := status[id := Doubtful];
    forall x | x in c.nodes
      ensures Edges(c.nodes[x]).Keys <= status'.Keys && status'[x] == StandingOf(c, g', status', x)
    {
      assert status[x] == StandingOf(c, g, status, x);
      BegunStanding(c, g, g', status, id, a, x);
    }
  }

  lemma BegunStanding(c: Campaign, g: Groups, g': Groups, status: map<string, Standing>, id: string, a: Attempt,
                      x: string)
    requires Closed(c.nodes) && c.nodes.Keys <= g.Keys && IsStatus(c, g, status) && id in c.nodes && x in c.nodes
    requires status[id] == Ready && a.phase == Submitting && g[id] == [] && g' == g[id := [a]]
    ensures Edges(c.nodes[x]).Keys <= status.Keys
    ensures StandingOf(c, g', status[id := Doubtful], x) == if x == id then Doubtful else status[x]
  {
    hide Edges, Closed;
    var status' := status[id := Doubtful];
    assert status[x] == StandingOf(c, g, status, x);
    assert forall v :: HasVerdict(c, status', x, v) <==> HasVerdict(c, status, x, v) by {
      SameVerdicts(c, status, status', x, id);
    }
    assert InputsProblem(c, g', x) <==> InputsProblem(c, g, x) by { SameProblems(c, g, g', x, id, a); }
  }

  lemma SameVerdicts(c: Campaign, status: map<string, Standing>, status': map<string, Standing>, x: string, id: string)
    requires x in c.nodes && Edges(c.nodes[x]).Keys <= status.Keys && id in status
    requires status[id] == Ready && status' == status[id := Doubtful]
    ensures forall v :: HasVerdict(c, status', x, v) <==> HasVerdict(c, status, x, v)
  {
    hide Edges;
    assert forall d :: d in Edges(c.nodes[x]) ==>
      EdgeVerdict(Edges(c.nodes[x])[d], status'[d]) == EdgeVerdict(Edges(c.nodes[x])[d], status[d]);
  }

  lemma SameProblems(c: Campaign, g: Groups, g': Groups, x: string, id: string, a: Attempt)
    requires x in c.nodes && c.nodes.Keys <= g.Keys && id in g && g[id] == [] && a.phase == Submitting
    requires g' == g[id := [a]]
    ensures InputsProblem(c, g', x) <==> InputsProblem(c, g, x)
  {
    hide Offer;
    assert forall i :: 0 <= i < |c.nodes[x].inputs| && c.nodes[x].inputs[i].producer in g ==>
      (ArtifactProblem(g', c.nodes[x].inputs[i]) <==> ArtifactProblem(g, c.nodes[x].inputs[i]));
  }

  // --------------------------------------------------------------------
  // One pass

  /** Do one node's next action. */
  method Perform(k: Controller, ghost status: map<string, Standing>, id: string, action: Action)
    returns (e: Ended, moved: bool)
    requires k.Valid() && id in k.c.nodes && k.c.nodes.Keys <= k.G().Keys && Closed(k.c.nodes)
    requires IsStatus(k.c, k.G(), status) && action == NextAction(k.c, k.G(), status[id], id) != Nothing
    modifies k`store, k`debris, k`journal, k`sent, k`jobs
    ensures k.Valid()
    ensures e != Fine || !moved ==> k.G() == old(k.G()) || (action == Submit && Begun(old(k.G()), k.G(), id))
    ensures e == Fine && !moved ==> action == Wait && k.G() == old(k.G())
  {
    hide IsStatus, Accepts, QueueOk, StoreOk, InOrder, Listed, WellFormed, Edges, Closed, EdgeHeld;
    moved := true;
    if action == Submit {
      ReadyHolds(k.c, k.G(), status, id);
      e := k.SubmitNew(id);
    } else {
      StartedShows(k.c, k.G(), status, id);
      if action == Reconcile {
        e := k.Send(id);
      } else if action == Wait {
        e, moved := k.Observe(id);
      } else {
        e := k.Publish(id);
      }
    }
  }

  /** Nothing is left to try for the node in this pass: it is held, waits for the queue, or has
      no next action. */
  ghost predicate Handled(c: Campaign, g: Groups, status: map<string, Standing>, held: set<string>, id: string)
    requires c.nodes.Keys <= g.Keys
  {
    id in c.nodes && id in status && (id in held || NextAction(c, g, status[id], id) in {Nothing, Wait})
  }

  ghost predicate HandledUpTo(c: Campaign, g: Groups, status: map<string, Standing>, held: set<string>, n: nat)
    requires c.nodes.Keys <= g.Keys
  {
    n <= |c.order| && forall j :: 0 <= j < n ==> Handled(c, g, status, held, c.order[j])
  }

  /** The nodes from the n-th on are as the sweep found them. */
  ghost predicate Untouched(c: Campaign, g: Groups, status: map<string, Standing>, g': Groups,
                            status': map<string, Standing>, n: nat)
    requires c.nodes.Keys <= g.Keys && c.nodes.Keys <= g'.Keys
  {
    forall j :: n <= j < |c.order| ==>
      && c.order[j] in c.nodes && c.order[j] in status && c.order[j] in status'
      && g'[c.order[j]] == g[c.order[j]] && status'[c.order[j]] == status[c.order[j]]
  }

  lemma HandledGrows(c: Campaign, g: Groups, status: map<string, Standing>, held: set<string>, held': set<string>,
                     n: nat)
    requires c.nodes.Keys <= g.Keys && HandledUpTo(c, g, status, held, n) && held <= held' && n < |c.order|
    requires Handled(c, g, status, held', c.order[n])
    ensures HandledUpTo(c, g, status, held', n + 1)
  {
    hide NextAction;
    forall j | 0 <= j < n + 1 ensures Handled(c, g, status, held', c.order[j]) {
      assert j < n ==> Handled(c, g, status, held, c.order[j]);
    }
  }

  /** A submission recorded at the n-th node leaves the earlier ones handled. */
  lemma HandledBegun(c: Campaign, g: Groups, g': Groups, status: map<string, Standing>, held: set<string>, n: nat)
    requires WellFormed(c) && c.nodes.Keys <= g.Keys && c.nodes.Keys <= g'.Keys
    requires n < |c.order| && HandledUpTo(c, g, status, held, n) && Begun(g, g', c.order[n])
    ensures HandledUpTo(c, g', status[c.order[n] := Doubtful], held, n)
  {
    hide Closed, Sequenced, InputsDeclared;
    forall j | 0 <= j < n ensures Handled(c, g', status[c.order[n] := Doubtful], held, c.order[j]) {
      assert Handled(c, g, status, held, c.order[j]) && c.order[j] != c.order[n];
    }
  }

  /** The nodes something was tried for. */
  ghost function TriedFor(done: set<(string, Action)>): set<string> {
    set p | p in done :: p.0
  }

  /** One sweep over the nodes in order; it stops at the first action that changed something. */
  method Sweep(k: Controller, g: Groups, status: map<string, Standing>, done: set<(string, Action)>)
    returns (crashed: bool, acted: bool, done': set<(string, Action)>, ghost status': map<string, Standing>)
    requires k.Valid() && g == k.G() && k.c.nodes.Keys <= g.Keys && Closed(k.c.nodes) && IsStatus(k.c, g, status)
    modifies k`store, k`debris, k`journal, k`sent, k`jobs, k`problems, k`transient
    ensures k.Valid() && done <= done' && old(k.problems) <= k.problems
    ensures k.transient <= old(k.transient) + TriedFor(done')
    ensures crashed ==> !acted && done' != done
    ensures acted ==> exists p :: p in done' && p !in done && p.0 in k.c.nodes && p.1 != Nothing
    ensures !crashed && !acted && done == {} ==>
      && k.c.nodes.Keys <= k.G().Keys && IsStatus(k.c, k.G(), status')
      && HandledUpTo(k.c, k.G(), status', k.problems + k.transient, |k.c.order|)
  {
    hide IsStatus, Accepts, QueueOk, StoreOk, InOrder, Listed, WellFormed, NextAction, Closed;
    hide Begun, Untouched, HandledUpTo;
    acted, crashed, done', status' := false, false, done, status;
    UntouchedStart(k.c, g, status);
    for n := 0 to |k.c.order|
      invariant k.Valid() && k.c.nodes.Keys <= k.G().Keys && IsStatus(k.c, k.G(), status') && done <= done'
      invariant old(k.problems) <= k.problems && k.transient <= old(k.transient) + TriedFor(done')
      invariant Untouched(k.c, g, status, k.G(), status', n)
      invariant forall p :: p in done' ==> p in done || p.0 in k.c.order[..n]
      invariant done == {} ==> HandledUpTo(k.c, k.G(), status', k.problems + k.transient, n)
    {
      var id := k.c.order[n];
      OrderFacts(k.c, n);
      UntouchedHere(k.c, g, status, k.G(), status', n);
      var kind := NextAction(k.c, g, status[id], id);
      assert k.c.order[..n + 1] == k.c.order[..n] + [id];
      if kind == Nothing || id in k.problems || id in k.transient || (id, kind) in done' {
        if done == {} {
          SkipHandled(k.c, k.G(), status', k.problems + k.transient, n);
        }
        UntouchedOn(k.c, g, status, k.G(), status', k.G(), status', n);
      } else {
        ghost var g', before := k.G(), status';
        OneMore(done', id, kind);
        done' := done' + {(id, kind)};
        var ended;
        ended, status' := TryOne(k, status', n, kind);
        if ended == Crashed { return true, false, done', status'; }
        if ended == Fine { return false, true, done', status'; }
        UntouchedOn(k.c, g, status, g', before, k.G(), status', n);
      }
    }
  }

  lemma OneMore(done: set<(string, Action)>, id: string, kind: Action)
    ensures TriedFor(done + {(id, kind)}) == TriedFor(done) + {id}
  {
    var more := done + {(id, kind)};
    forall x | x in TriedFor(done) + {id} ensures x in TriedFor(more) {
      if x == id {
        assert (id, kind) in more && (id, kind).0 == x;
      } else {
        var p :| p in done && p.0 == x;
        assert p in more;
      }
    }
  }

  lemma UntouchedHere(c: Campaign, g: Groups, status: map<string, Standing>, g': Groups,
                      status': map<string, Standing>, n: nat)
    requires c.nodes.Keys <= g.Keys && c.nodes.Keys <= g'.Keys && n < |c.order|
    requires Untouched(c, g, status, g', status', n)
    ensures var id := c.order[n];
            && id in c.nodes && id in status && id in status'
            && NextAction(c, g', status'[id], id) == NextAction(c, g, status[id], id)
  {
  }

  lemma UntouchedOn(c: Campaign, g: Groups, status: map<string, Standing>, g': Groups, status': map<string, Standing>,
                    g'': Groups, status'': map<string, Standing>, n: nat)
    requires c.nodes.Keys <= g.Keys && c.nodes.Keys <= g'.Keys && c.nodes.Keys <= g''.Keys
    requires Untouched(c, g, status, g', status', n)
    requires (g'' == g' && status'' == status') || Untouched(c, g', status', g'', status'', n + 1)
    ensures Untouched(c, g, status, g'', status'', n + 1)
  {
  }

  lemma SkipHandled(c: Campaign, g: Groups, status: map<string, Standing>, held: set<string>, n: nat)
    requires c.nodes.Keys <= g.Keys && HandledUpTo(c, g, status, held, n) && n < |c.order|
    requires var id := c.order[n];
             id in c.nodes && id in status && (id in held || NextAction(c, g, status[id], id) == Nothing)
    ensures HandledUpTo(c, g, status, held, n + 1)
  {
    hide NextAction;
    HandledGrows(c, g, status, held, held, n);
  }

  /** Try the n-th node's action: `Fine` when it changed something, else the node is handled. */
  method TryOne(k: Controller, ghost status: map<string, Standing>, n: nat, kind: Action)
    returns (ended: Ended, ghost status': map<string, Standing>)
    requires k.Valid() && n < |k.c.order| && k.c.nodes.Keys <= k.G().Keys && Closed(k.c.nodes)
    requires k.c.order[n] in k.c.nodes
    requires IsStatus(k.c, k.G(), status)
    requires kind == NextAction(k.c, k.G(), status[k.c.order[n]], k.c.order[n]) != Nothing
    modifies k`store, k`debris, k`journal, k`sent, k`jobs, k`problems, k`transient
    ensures k.Valid() && old(k.problems) <= k.problems && k.c.nodes.Keys <= k.G().Keys
    ensures k.transient <= old(k.transient) + {k.c.order[n]}
    ensures ended in {AskAgain, Held} ==>
      && IsStatus(k.c, k.G(), status') && Untouched(k.c, old(k.G()), status, k.G(), status', n + 1)
      && (HandledUpTo(k.c, old(k.G()), status, old(k.problems + k.transient), n) ==>
            HandledUpTo(k.c, k.G(), status', k.problems + k.transient, n + 1))
  {
    hide IsStatus, Accepts, QueueOk, StoreOk, InOrder, Listed, Sequenced, InputsDeclared, NextAction;
    hide Begun, Closed;
    var id := k.c.order[n];
    ghost var g, held := k.G(), k.problems + k.transient;
    status' := status;
    var e, moved := Perform(k, status, id, kind);
    if e == Crashed || (e == Fine && moved) { return e, status'; }
    if k.G() != g {
      SubmitReady(k.c, g, status, id);
      BegunStatus(k.c, g, k.G(), status, id);
      status' := status[id := Doubtful];
      if HandledUpTo(k.c, g, status, held, n) { HandledBegun(k.c, g, k.G(), status, held, n); }
    }
    UntouchedRest(k.c, g, k.G(), status, status', n);
    if e == AskAgain { k.transient := k.transient + {id}; }
    if e == Held { k.problems := k.problems + {id}; }
    if HandledUpTo(k.c, k.G(), status', held, n) {
      HandledGrows(k.c, k.G(), status', held, k.problems + k.transient, n);
    }
    ended := if e == Held then Held else AskAgain;
  }

  lemma SubmitReady(c: Campaign, g: Groups, status: map<string, Standing>, id: string)
    requires Closed(c.nodes) && c.nodes.Keys <= g.Keys && IsStatus(c, g, status) && id in c.nodes
    requires NextAction(c, g, status[id], id) == Submit
    ensures status[id] == Ready
  {
  }

  lemma UntouchedStart(c: Campaign, g: Groups, status: map<string, Standing>)
    requires WellFormed(c) && c.nodes.Keys <= g.Keys && IsStatus(c, g, status)
    ensures Untouched(c, g, status, g, status, 0) && forall held :: HandledUpTo(c, g, status, held, 0)
    ensures forall id :: id in c.order ==> id in c.nodes && id in status
  {
    hide Closed, Sequenced, InputsDeclared, StandingOf, Edges;
  }

  lemma UntouchedRest(c: Campaign, g: Groups, g': Groups, status: map<string, Standing>,
                      status': map<string, Standing>, n: nat)
    requires WellFormed(c) && c.nodes.Keys <= g.Keys && c.nodes.Keys <= g'.Keys && IsStatus(c, g, status)
    requires n < |c.order| && (g' == g || Begun(g, g', c.order[n]))
    requires status' == status || status' == status[c.order[n] := Doubtful]
    ensures Untouched(c, g, status, g', status', n + 1)
    ensures c.order[n] in status && c.order[n] in status'
  {
    hide Closed, Sequenced, InputsDeclared, StandingOf, Edges;
    forall j | n + 1 <= j < |c.order|
      ensures c.order[j] in c.nodes && c.order[j] in status && c.order[j] in status'
      ensures g'[c.order[j]] == g[c.order[j]] && status'[c.order[j]] == status[c.order[j]]
    {
      assert c.order[j] != c.order[n];
      assert c.order[j] in c.order;
    }
    assert c.order[n] in c.order;
  }

  /** The journal, grouped as every reading of it starts. */
  method Grouped(k: Controller) returns (g: Groups)
    requires k.Valid()
    ensures g == k.G() && g.Keys == k.c.nodes.Keys
  {
    hide QueueOk, StoreOk, InOrder, Listed, WellFormed, NodeOk, StartedOk;
    GroupsAreListed(k.c, k.journal);
    var found := AttemptsByNode(k.c, k.c.digest, k.journal);
    g := found.value;
  }

  ghost function Universe(c: Campaign): set<(string, Action)> {
    set id, a | id in c.nodes.Keys && a in {Submit, Reconcile, Wait, Publish} :: (id, a)
  }

  /** One pass: act on every node that can move. It ends, because each node takes each kind of
      action at most once; if it changed nothing, nothing was left to try. Only what this pass
      tried, and could not get an answer about, is set aside for it. */
  method Step(k: Controller)
    returns (crashed: bool, progressed: bool, ghost status: map<string, Standing>, ghost tried: set<string>)
    requires k.Valid()
    modifies k`store, k`debris, k`journal, k`sent, k`jobs, k`problems, k`transient
    ensures k.Valid() && Closed(k.c.nodes) && k.c.nodes.Keys <= k.G().Keys && k.transient <= tried
    ensures progressed || crashed ==> tried != {}
    ensures !crashed && !progressed ==>
      && IsStatus(k.c, k.G(), status)
      && HandledUpTo(k.c, k.G(), status, k.problems + k.transient, |k.c.order|)
  {
    hide IsStatus, Accepts, QueueOk, StoreOk, InOrder, Listed, HandledUpTo, Sequenced, InputsDeclared, Closed;
    k.transient := {};
    progressed := false;
    var done: set<(string, Action)> := {};
    while true
      invariant k.Valid() && (!progressed <==> done == {}) && k.transient <= TriedFor(done)
      decreases Universe(k.c) - done
    {
      var g := Grouped(k);
      var current := ComputeStatus(k.c, g);
      var acted, done';
      crashed, acted, done', status := Sweep(k, g, current, done);
      tried := TriedFor(done');
      TriedSome(done');
      TriedGrows(done, done');
      AllGrouped(k.c, k.G());
      if crashed || !acted { return; }
      ghost var p :| p in done' && p !in done && p.0 in k.c.nodes && p.1 != Nothing;
      assert p in Universe(k.c) - done && p !in Universe(k.c) - done';
      progressed, done := true, done';
    }
  }

  lemma TriedSome(done: set<(string, Action)>)
    ensures done != {} ==> TriedFor(done) != {}
  {
    if done != {} {
      var p :| p in done;
      assert p.0 in TriedFor(done);
    }
  }

  lemma TriedGrows(done: set<(string, Action)>, more: set<(string, Action)>)
    requires done <= more
    ensures TriedFor(done) <= TriedFor(more)
  {
    forall x | x in TriedFor(done) ensures x in TriedFor(more) {
      var p :| p in done && p.0 == x;
      assert p in more;
    }
  }

  lemma AllGrouped(c: Campaign, g: Groups)
    requires Accepts(c, g)
    ensures g.Keys == c.nodes.Keys
  {
  }

  /** There is only one way the nodes can stand. */
  lemma {:induction false} StatusUnique(c: Campaign, g: Groups, s: map<string, Standing>, t: map<string, Standing>,
                                        n: nat)
    requires WellFormed(c) && c.nodes.Keys <= g.Keys && IsStatus(c, g, s) && IsStatus(c, g, t) && n < |c.order|
    ensures s[c.order[n]] == t[c.order[n]]
    decreases n
  {
    hide StandingOf, Edges, InputsDeclared, Sequenced;
    OrderFacts(c, n);
    var id := c.order[n];
    forall d | d in Edges(c.nodes[id]) ensures s[d] == t[d] {
      var j :| 0 <= j < n && c.order[j] == d;
      StatusUnique(c, g, s, t, j);
    }
    assert s[id] == StandingOf(c, g, s, id) && t[id] == StandingOf(c, g, t, id);
    StandingFrame(c, g, s, t, id);
  }

  lemma HandledIsQuiescent(c: Campaign, g: Groups, ghostly: map<string, Standing>, status: map<string, Standing>,
                           problems: set<string>)
    requires WellFormed(c) && c.nodes.Keys <= g.Keys && IsStatus(c, g, ghostly) && IsStatus(c, g, status)
    requires HandledUpTo(c, g, ghostly, problems, |c.order|)
    requires forall id :: id in c.nodes && id !in problems ==> status[id] != Active
    ensures Quiescent(c, g, status, problems)
  {
    hide StandingOf, Edges, InputsDeclared, Sequenced;
    forall id | id in c.nodes && id !in problems ensures NextAction(c, g, status[id], id) == Nothing {
      var n :| 0 <= n < |c.order| && c.order[n] == id;
      assert Handled(c, g, ghostly, problems, c.order[n]);
      StatusUnique(c, g, ghostly, status, n);
    }
  }

  /** Every node fully succeeded, or is failed, held, or behind one that is. */
  ghost predicate Explained(c: Campaign, g: Groups, problems: set<string>)
    requires c.nodes.Keys <= g.Keys
  {
    forall id :: id in c.nodes ==> FullyDone(c, g, id) || Stuck(c, g, problems, id)
  }

  lemma QuiescentExplained(c: Campaign, g: Groups, status: map<string, Standing>, problems: set<string>)
    requires WellFormed(c) && c.nodes.Keys <= g.Keys && Quiescent(c, g, status, problems)
    ensures Explained(c, g, problems)
  {
    hide Quiescent, FullyDone, Stuck, Closed, InputsDeclared, Sequenced;
    forall id | id in c.nodes ensures FullyDone(c, g, id) || Stuck(c, g, problems, id) {
      var n :| 0 <= n < |c.order| && c.order[n] == id;
      if !FullyDone(c, g, id) { QuiescentStuck(c, g, status, problems, n); }
    }
  }

  /** Where the nodes stand, whether all are done, and whether one runs that no problem holds. */
  method Assess(k: Controller) returns (status: map<string, Standing>, all: bool, running: bool)
    requires k.Valid() && Closed(k.c.nodes) && k.c.nodes.Keys <= k.G().Keys
    ensures IsStatus(k.c, k.G(), status) && status.Keys == k.c.nodes.Keys
    ensures all <==> !Unfulfilled(k.c, k.G())
    ensures running <==> exists id :: id in status && id !in k.problems && status[id] == Active
    ensures all ==> Explained(k.c, k.G(), k.problems) && forall id :: id in k.c.nodes ==> FullyDone(k.c, k.G(), id)
  {
    hide IsStatus, Accepts, QueueOk, StoreOk, InOrder, Listed, Sequenced, InputsDeclared, Closed, FullyDone, Stands;
    var g := Grouped(k);
    status := ComputeStatus(k.c, g);
    all := forall id :: id in k.c.nodes ==> FullyDone(k.c, g, id);
    running := exists id :: id in k.c.nodes && id !in k.problems && status[id] == Active;
  }

  /** Pass until nothing more can run, for at most the given number of passes. Whenever it
      returns a report by itself, every node is explained; and with no failure and no problem
      the campaign succeeded. It is cut off only while some node is not done and, as `busy` says,
      one runs, the last pass changed something or a question is open. */
  method Run(k: Controller, once: bool, passes: nat)
    returns (report: Option<map<string, Standing>>, crashed: bool, ghost busy: bool)
    requires k.Valid()
    modifies k`store, k`debris, k`journal, k`sent, k`jobs, k`problems, k`transient
    ensures k.Valid() && Closed(k.c.nodes) && k.c.nodes.Keys <= k.G().Keys
    ensures report.Some? ==> !crashed && IsStatus(k.c, k.G(), report.value)
    ensures report.Some? && !once ==> Explained(k.c, k.G(), k.problems)
    ensures report.Some? && !once && k.problems == {} && Dead !in report.value.Values ==>
      forall id :: id in k.c.nodes ==> FullyDone(k.c, k.G(), id)
    ensures report.None? && !crashed && passes > 0 ==>
      busy && !once && Unfulfilled(k.c, k.G())
    ensures passes == 0 ==> report.None? && !crashed
  {
    hide IsStatus, Accepts, QueueOk, StoreOk, InOrder, Listed, HandledUpTo, Sequenced, InputsDeclared, Closed;
    hide FullyDone, Stuck, Quiescent, Explained, WellFormed, Unfulfilled;
    report, crashed, busy := None, false, true;
    var left := passes;
    AllGrouped(k.c, k.G());
    WellFormedClosed(k.c);
    while left > 0
      invariant k.Valid() && Closed(k.c.nodes) && k.c.nodes.Keys <= k.G().Keys && left <= passes && busy
      invariant left < passes ==> !once && Unfulfilled(k.c, k.G())
    {
      var progressed;
      ghost var ghostly, tried;
      crashed, progressed, ghostly, tried := Step(k);
      if crashed { return; }
      var status, all, running := Assess(k);
      busy := running || progressed || k.transient != {};
      if once || all { return Some(status), false, busy; }
      if !(running || progressed || k.transient != {}) {
        assert k.problems + k.transient == k.problems;
        EndsExplained(k.c, k.G(), ghostly, status, k.problems);
        return Some(status), false, busy;
      }
      k.Others();
      left := left - 1;
    }
  }

  lemma WellFormedClosed(c: Campaign)
    requires WellFormed(c)
    ensures Closed(c.nodes)
  {
  }

  /** Some node is not fully done. */
  ghost predicate Unfulfilled(c: Campaign, g: Groups) {
    exists id :: id in c.nodes && id in g && !FullyDone(c, g, id)
  }

  lemma EndsExplained(c: Campaign, g: Groups, seen: map<string, Standing>, status: map<string, Standing>,
                      problems: set<string>)
    requires WellFormed(c) && c.nodes.Keys <= g.Keys && IsStatus(c, g, seen) && IsStatus(c, g, status)
    requires HandledUpTo(c, g, seen, problems, |c.order|)
    requires status.Keys == c.nodes.Keys && !exists id :: id in status && id !in problems && status[id] == Active
    ensures Explained(c, g, problems)
    ensures problems == {} && Dead !in status.Values ==> forall id :: id in c.nodes ==> FullyDone(c, g, id)
  {
    hide IsStatus, HandledUpTo, Sequenced, InputsDeclared, Closed, FullyDone, Stuck, Quiescent;
    StatusKeys(c, g, status);
    HandledIsQuiescent(c, g, seen, status, problems);
    QuiescentExplained(c, g, status, problems);
    if problems == {} && Dead !in status.Values {
      NoneDead(c, status);
      QuiescentSucceeded(c, g, status);
    }
  }

  lemma StatusKeys(c: Campaign, g: Groups, status: map<string, Standing>)
    requires Closed(c.nodes) && c.nodes.Keys <= g.Keys && IsStatus(c, g, status)
    ensures status.Keys == c.nodes.Keys
  {
  }

  lemma NoneDead(c: Campaign, status: map<string, Standing>)
    requires status.Keys == c.nodes.Keys && Dead !in status.Values
    ensures forall id :: id in c.nodes ==> status[id] != Dead
  {
    forall id | id in c.nodes ensures status[id] != Dead { assert status[id] in status.Values; }
  }

  // --------------------------------------------------------------------
  // Retries, and any history of the controller

  /** Record the next attempt of a failed or cancelled node, staged but unsent. */
  method AuthorizeRetry(k: Controller, id: string) returns (e: Ended)
    requires k.Valid()
    modifies k`store, k`debris, k`journal
    ensures k.Valid()
    ensures e == Fine ==>
      && id in k.c.nodes && old(k.G())[id] != []
      && old(k.G())[id][|old(k.G())[id]| - 1].phase in {Failed, Cancelled}
      && |k.G()[id]| == |old(k.G())[id]| + 1
      && k.G() == old(k.G())[id := old(k.G())[id] + [k.G()[id][|old(k.G())[id]|]]]
      && var a := k.G()[id][|old(k.G())[id]|];
         && a.phase == Submitting && a.retryOf == Some(|old(k.G())[id]|)
         && AllBound(k.c, old(k.G()), id, a.inputs) && PayloadOk(k.store, a)
    ensures e != Fine ==> k.G() == old(k.G())
  {
    hide Accepts, QueueOk, StoreOk, InOrder, Listed, WellFormed;
    if id !in k.c.nodes { return Held; }
    var listed := Listed(k.journal, id);
    if listed == [] || listed[|listed| - 1].phase !in {Failed, Cancelled} { return Held; }
    GroupNumbersAt(k.c, k.G(), id);
    var number := listed[|listed| - 1].number + 1;
    var bindings;
    e, bindings := k.Stage(id, number);
    if e != Fine { return; }
    if * { return Crashed; }
    var a := Attempt(id, number, Some(number - 1), Key(k.c.digest, id, number), Submitting, None, bindings, map[]);
    k.Append(id, a);
  }

  lemma GroupNumbersAt(c: Campaign, g: Groups, id: string)
    requires Accepts(c, g) && id in c.nodes && g[id] != []
    ensures g[id][|g[id]| - 1].number == |g[id]|
  {
    hide Accepts;
    AllGrouped(c, g);
    GroupNumbers(c, g, id, |g[id]| - 1);
  }

  /** A restart forgets the problems of the process that ended; the rest is durable. */
  method Restart(k: Controller)
    requires k.Valid()
    modifies k`problems, k`transient
    ensures k.Valid() && k.problems == {} && k.transient == {}
  {
    hide WellFormed, InOrder, Accepts, QueueOk, StoreOk;
    k.problems, k.transient := {}, {};
  }

  /** A cleanup, when nothing needed looks like a leftover. */
  method CleanUp(k: Controller, intermediate: bool)
    requires k.Valid()
    modifies k`store, k`debris
    ensures k.Valid()
  {
    hide Accepts, QueueOk, StoreOk, InOrder, Listed, WellFormed, NeededTidy, Listable, Cleaned, OnlyListed;
    var g := Grouped(k);
    if NeededTidy(k.c, g, k.store) {
      var plan := CleanupPlan(k, g, intermediate);
      var crashed := ApplyCleanup(k, g, intermediate, plan);
    }
  }

  /** Any history: passes, retries, restarts and cleanups in any order, each of which may crash
      anywhere; a cleanup only while nothing needed looks like a leftover. The journal stays
      acceptable, an attempt never has two jobs, and a node never has two unfinished ones. */
  method AnyHistory(k: Controller, turns: nat)
    requires k.Valid()
    modifies k`store, k`debris, k`journal, k`sent, k`jobs, k`problems, k`transient
    ensures k.Valid() && JournalOk(k.c, k.c.digest, k.journal)
    ensures forall a, b :: a in k.jobs && b in k.jobs && a.node == b.node && a.attempt == b.attempt ==> a == b
    ensures forall a, b :: Unfinished(k.jobs, a) && Unfinished(k.jobs, b) && a.node == b.node ==> a == b
  {
    hide Accepts, QueueOk, StoreOk, InOrder, Listed, WellFormed;
    var left := turns;
    while left > 0
      invariant k.Valid()
    {
      if {
        case true =>
          ghost var status;
          var crashed, progressed;
          ghost var tried;
          crashed, progressed, status, tried := Step(k);
        case true =>
          var id: string := *;
          var e := AuthorizeRetry(k, id);
        case true => Restart(k);
        case true =>
          var intermediate: bool := *;
          CleanUp(k, intermediate);
        case true => k.Others();
      }
      left := left - 1;
    }
    GroupsAreListed(k.c, k.journal);
    forall a, b | Unfinished(k.jobs, a) && Unfinished(k.jobs, b) && a.node == b.node ensures a == b {
      OneUnfinishedJob(k.c, k.G(), k.jobs, k.sent, a, b);
    }
    forall a | a in k.jobs ensures a.digest == k.c.digest { JobKey(k.c, k.G(), k.jobs, k.sent, a); }
  }

  ghost predicate Unfinished(jobs: Jobs, k: Key) {
    k in jobs && !Terminal(jobs[k].phase)
  }

  lemma JobKey(c: Campaign, g: Groups, jobs: Jobs, sent: set<Key>, k: Key)
    requires Accepts(c, g) && QueueOk(g, jobs, sent) && k in jobs
    ensures k.digest == c.digest
  {
    hide Accepts;
    AllGrouped(c, g);
    assert Recorded(g, k);
    var i :| 0 <= i < |g[k.node]| && g[k.node][i].key == k;
    GroupNumbers(c, g, k.node, i);
  }
}
