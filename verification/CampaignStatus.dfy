/** The campaign journal and where it says each node stands (src/vq/campaign.py:640-893). */
module CampaignStatus {
  import opened Common
  import opened CampaignGraph

  datatype Phase = Submitting | Accepted | Running | Succeeded | Failed | Cancelled

  predicate Terminal(p: Phase) {
    p in {Succeeded, Failed, Cancelled}
  }

  /** A file or directory: each entry by its path components, a file itself at the empty path. */
  type Tree = map<seq<string>, string>

  /** What an artifact holds and where it came from; it stands for its own digest. */
  datatype Manifest = Manifest(node: string, attempt: nat, output: string, content: Tree)

  datatype ArtifactRecord = ArtifactRecord(manifest: Manifest, verified: bool)

  datatype Binding = Binding(producerAttempt: nat, manifest: Manifest)

  datatype JobRef = JobRef(host: string, id: string)

  /** An idempotency key derives from campaign, node and attempt, and stands for its digest. */
  datatype Key = Key(digest: string, node: string, attempt: nat)

  datatype Attempt = Attempt(
    node: string, number: nat, retryOf: Option<nat>, key: Key, phase: Phase, job: Option<JobRef>,
    inputs: map<string, Binding>, artifacts: map<string, ArtifactRecord>)

  datatype Campaign = Campaign(digest: string, nodes: Nodes, order: seq<string>)

  ghost predicate WellFormed(c: Campaign) {
    && Closed(c.nodes) && Sequenced(c.nodes, c.order) && Distinct(c.order)
    && (forall id :: id in c.order <==> id in c.nodes)
    && InputsDeclared(c.nodes)
  }

  /** Every input names an output its producer declares, and has a name of its own. */
  ghost predicate InputsDeclared(nodes: Nodes) {
    && (forall id, i :: id in nodes && 0 <= i < |nodes[id].inputs| ==>
          var item := nodes[id].inputs[i];
          item.producer in nodes && item.output in OutputNames(nodes[item.producer]))
    && (forall id, i, k :: id in nodes && 0 <= i < k < |nodes[id].inputs| ==>
          nodes[id].inputs[i].name != nodes[id].inputs[k].name)
  }

  type Groups = map<string, seq<Attempt>>

  // --------------------------------------------------------------------
  // What a journal must show

  function InputNames(n: Node): set<string> {
    set i | 0 <= i < |n.inputs| :: n.inputs[i].name
  }

  function OutputNames(n: Node): set<string> {
    set i | 0 <= i < |n.outputs| :: n.outputs[i]
  }

  predicate AttemptOk(c: Campaign, id: string, attempts: seq<Attempt>, i: nat)
    requires id in c.nodes && i < |attempts|
  {
    var a := attempts[i];
    && a.number == i + 1 && a.key == Key(c.digest, id, i + 1)
    && (if i == 0 then a.retryOf.None?
        else a.retryOf == Some(i) && attempts[i - 1].phase in {Failed, Cancelled})
    && (a.phase in {Accepted, Running, Succeeded} ==> a.job.Some?)
    && a.artifacts.Keys <= OutputNames(c.nodes[id]) && a.inputs.Keys <= InputNames(c.nodes[id])
  }

  predicate NodeOk(c: Campaign, id: string, attempts: seq<Attempt>)
    requires id in c.nodes
  {
    forall i :: 0 <= i < |attempts| ==> AttemptOk(c, id, attempts, i)
  }

  function Latest(attempts: seq<Attempt>): Option<Attempt> {
    if attempts == [] then None else Some(attempts[|attempts| - 1])
  }

  function Success(attempts: seq<Attempt>): Option<Attempt> {
    if attempts != [] && attempts[|attempts| - 1].phase == Succeeded then Latest(attempts) else None
  }

  predicate Finished(attempts: seq<Attempt>) {
    exists i :: 0 <= i < |attempts| && Terminal(attempts[i].phase)
  }

  /** What a producer offers for an input: the binding to stage it from, if it is verified. */
  function Offer(attempts: seq<Attempt>, output: string): Option<Binding> {
    var a :- Success(attempts);
    if output in a.artifacts && a.artifacts[output].verified
    then Some(Binding(a.number, a.artifacts[output].manifest)) else None
  }

  predicate EdgeHeld(attempts: seq<Attempt>, onSuccess: bool) {
    if onSuccess then Success(attempts).Some? else Finished(attempts)
  }

  /** A started node had everything it needed, from where it says it came. */
  predicate StartedOk(c: Campaign, g: Groups, id: string)
    requires id in c.nodes
  {
    id in g && (g[id] != [] ==>
      && (forall d :: d in Edges(c.nodes[id]) ==> d in g && EdgeHeld(g[d], Edges(c.nodes[id])[d]))
      && (forall i :: 0 <= i < |c.nodes[id].inputs| ==>
            Bound(g, c.nodes[id].inputs[i], g[id][|g[id]| - 1].inputs)))
  }

  predicate Bound(g: Groups, item: Input, inputs: map<string, Binding>) {
    && item.producer in g && Offer(g[item.producer], item.output).Some?
    && item.name in inputs && Some(inputs[item.name]) == Offer(g[item.producer], item.output)
  }

  ghost predicate Accepts(c: Campaign, g: Groups) {
    && g.Keys == c.nodes.Keys
    && forall id :: id in c.nodes ==> NodeOk(c, id, g[id]) && StartedOk(c, g, id)
  }

  // --------------------------------------------------------------------
  // Where each node stands

  datatype Standing = Done | Dead | Active | Doubtful | Blocked | Waiting | Ready

  datatype Verdict = Met | Later | Never

  function EdgeVerdict(onSuccess: bool, s: Standing): Verdict {
    if onSuccess then
      if s == Done then Met else if s in {Dead, Blocked} then Never else Later
    else if s in {Done, Dead} then Met
    else if s == Blocked then Never
    else Later
  }

  predicate ArtifactProblem(g: Groups, item: Input)
    requires item.producer in g
  {
    Success(g[item.producer]).Some? && Offer(g[item.producer], item.output).None?
  }

  function StartedStanding(p: Phase): Standing {
    match p
    case Submitting => Doubtful
    case Accepted => Active
    case Running => Active
    case Succeeded => Done
    case _ => Dead
  }

  predicate HasVerdict(c: Campaign, status: map<string, Standing>, id: string, v: Verdict)
    requires id in c.nodes && Edges(c.nodes[id]).Keys <= status.Keys
  {
    exists d :: d in Edges(c.nodes[id]) && EdgeVerdict(Edges(c.nodes[id])[d], status[d]) == v
  }

  predicate InputsProblem(c: Campaign, g: Groups, id: string)
    requires id in c.nodes && c.nodes.Keys <= g.Keys
  {
    exists i :: 0 <= i < |c.nodes[id].inputs| && c.nodes[id].inputs[i].producer in g
                && ArtifactProblem(g, c.nodes[id].inputs[i])
  }

  function StandingOf(c: Campaign, g: Groups, status: map<string, Standing>, id: string): Standing
    requires id in c.nodes && c.nodes.Keys <= g.Keys && Edges(c.nodes[id]).Keys <= status.Keys
  {
    if g[id] != [] then StartedStanding(g[id][|g[id]| - 1].phase)
    else if HasVerdict(c, status, id, Never) || InputsProblem(c, g, id) then Blocked
    else if HasVerdict(c, status, id, Later) then Waiting
    else Ready
  }

  /** Every node stands where its own attempts and its predecessors' standings put it. */
  ghost predicate IsStatus(c: Campaign, g: Groups, status: map<string, Standing>)
    requires Closed(c.nodes) && c.nodes.Keys <= g.Keys
  {
    && status.Keys == c.nodes.Keys
    && forall id :: id in c.nodes ==> Edges(c.nodes[id]).Keys <= status.Keys
                                      && status[id] == StandingOf(c, g, status, id)
  }

  lemma StandingFrame(c: Campaign, g: Groups, status: map<string, Standing>, status': map<string, Standing>, id: string)
    requires id in c.nodes && c.nodes.Keys <= g.Keys
    requires Edges(c.nodes[id]).Keys <= status.Keys && Edges(c.nodes[id]).Keys <= status'.Keys
    requires forall d :: d in Edges(c.nodes[id]) ==> status[d] == status'[d]
    ensures StandingOf(c, g, status, id) == StandingOf(c, g, status', id)
  {
    hide Edges, EdgeVerdict;
  }

  ghost predicate Placed(c: Campaign, g: Groups, status: map<string, Standing>, id: string)
    requires c.nodes.Keys <= g.Keys
  {
    && id in c.nodes && id in status && Edges(c.nodes[id]).Keys <= status.Keys
    && status[id] == StandingOf(c, g, status, id)
  }

  /** The first `k` nodes of the order are placed, and no other. */
  ghost predicate PlacedUpTo(c: Campaign, g: Groups, status: map<string, Standing>, k: nat)
    requires c.nodes.Keys <= g.Keys
  {
    && k <= |c.order| && (forall id :: id in status <==> id in c.order[..k])
    && forall i :: 0 <= i < k ==> Placed(c, g, status, c.order[i])
  }

  lemma OrderFacts(c: Campaign, k: nat)
    requires WellFormed(c) && k < |c.order|
    ensures c.order[k] in c.nodes && c.order[k] !in c.order[..k]
    ensures forall d :: d in Edges(c.nodes[c.order[k]]) ==> d in c.order[..k]
  {
    hide Edges, Closed;
    assert forall d :: d in Deps(c.nodes, c.order[k]) ==> d in c.order[..k];
  }

  lemma PlacedStays(c: Campaign, g: Groups, status: map<string, Standing>, id: string, s: Standing, x: string)
    requires c.nodes.Keys <= g.Keys && Placed(c, g, status, x) && id !in status
    ensures Placed(c, g, status[id := s], x)
  {
    hide StandingOf, Edges;
    StandingFrame(c, g, status, status[id := s], x);
  }

  lemma PlaceNext(c: Campaign, g: Groups, status: map<string, Standing>, k: nat)
    requires WellFormed(c) && c.nodes.Keys <= g.Keys && PlacedUpTo(c, g, status, k) && k < |c.order|
    ensures c.order[k] in c.nodes && Edges(c.nodes[c.order[k]]).Keys <= status.Keys
    ensures PlacedUpTo(c, g, status[c.order[k] := StandingOf(c, g, status, c.order[k])], k + 1)
  {
    hide StandingOf, Edges, WellFormed, Placed;
    OrderFacts(c, k);
    var id := c.order[k];
    var s := StandingOf(c, g, status, id);
    var status' := status[id := s];
    assert c.order[..k + 1] == c.order[..k] + [id];
    forall i | 0 <= i < k + 1 ensures Placed(c, g, status', c.order[i]) {
      if i < k {
        PlacedStays(c, g, status, id, s, c.order[i]);
      } else {
        PlacedNow(c, g, status, id);
      }
    }
  }

  lemma PlacedNow(c: Campaign, g: Groups, status: map<string, Standing>, id: string)
    requires c.nodes.Keys <= g.Keys && id in c.nodes && id !in status && Edges(c.nodes[id]).Keys <= status.Keys
    ensures Placed(c, g, status[id := StandingOf(c, g, status, id)], id)
  {
    hide StandingOf, Edges;
    StandingFrame(c, g, status, status[id := StandingOf(c, g, status, id)], id);
  }

  lemma AllPlaced(c: Campaign, g: Groups, status: map<string, Standing>)
    requires WellFormed(c) && c.nodes.Keys <= g.Keys && PlacedUpTo(c, g, status, |c.order|)
    ensures IsStatus(c, g, status)
  {
    hide StandingOf, Edges, Closed, Sequenced;
    assert c.order[..|c.order|] == c.order;
    forall id | id in c.nodes ensures Placed(c, g, status, id) {
      var i :| 0 <= i < |c.order| && c.order[i] == id;
    }
  }

  /** Some input's producer succeeded without that output verified. */
  ghost predicate Unpublished(c: Campaign, g: Groups, id: string)
    requires id in c.nodes
  {
    exists i :: 0 <= i < |c.nodes[id].inputs|
                && LacksOutput(g, c.nodes[id].inputs[i].producer, c.nodes[id].inputs[i].output)
  }

  ghost predicate LacksOutput(g: Groups, producer: string, output: string) {
    && producer in g && g[producer] != []
    && var last := g[producer][|g[producer]| - 1];
       last.phase == Succeeded && !(output in last.artifacts && last.artifacts[output].verified)
  }

  /** A started node stands where its last attempt is. */
  ghost predicate StartedStands(p: Phase, s: Standing) {
    && (s == Doubtful <==> p == Submitting)
    && (s == Active <==> p == Accepted || p == Running)
    && (s == Done <==> p == Succeeded)
    && (s == Dead <==> p == Failed || p == Cancelled)
  }

  /** A predecessor that can no longer do what the node needs of it. */
  ghost predicate Hopeless(c: Campaign, status: map<string, Standing>, id: string, d: string)
    requires id in c.nodes
  {
    && d in status
    && (|| (MustSucceed(c.nodes[id], d) && (status[d] == Dead || status[d] == Blocked))
        || (MustEnd(c.nodes[id], d) && status[d] == Blocked))
  }

  /** A predecessor that has done what the node needs of it. */
  ghost predicate Served(c: Campaign, status: map<string, Standing>, id: string, d: string)
    requires id in c.nodes && d in status
  {
    && (MustSucceed(c.nodes[id], d) ==> status[d] == Done)
    && (MustEnd(c.nodes[id], d) ==> status[d] == Done || status[d] == Dead)
  }

  /** A node not started is blocked when an artifact is missing or a predecessor is hopeless, ready
      when nothing is missing and every predecessor has served it, and otherwise waits. */
  ghost predicate IdleStands(c: Campaign, g: Groups, status: map<string, Standing>, id: string)
    requires id in c.nodes && id in status
  {
    && (status[id] == Blocked <==> Unpublished(c, g, id) || exists d :: Hopeless(c, status, id, d))
    && (status[id] == Ready <==> !Unpublished(c, g, id) && forall d :: d in status ==> Served(c, status, id, d))
    && (status[id] == Blocked || status[id] == Ready || status[id] == Waiting)
  }

  ghost predicate Stands(c: Campaign, g: Groups, status: map<string, Standing>, id: string)
    requires id in c.nodes && id in g && id in status
  {
    if g[id] != [] then StartedStands(g[id][|g[id]| - 1].phase, status[id]) else IdleStands(c, g, status, id)
  }

  lemma UnpublishedMeans(c: Campaign, g: Groups, id: string)
    requires id in c.nodes && c.nodes.Keys <= g.Keys
    ensures InputsProblem(c, g, id) <==> Unpublished(c, g, id)
  {
    var n := c.nodes[id];
    forall i | 0 <= i < |n.inputs|
      ensures n.inputs[i].producer in g && ArtifactProblem(g, n.inputs[i])
              <==> LacksOutput(g, n.inputs[i].producer, n.inputs[i].output)
    {
    }
    if Unpublished(c, g, id) {
      var i :| 0 <= i < |n.inputs| && LacksOutput(g, n.inputs[i].producer, n.inputs[i].output);
    }
    if InputsProblem(c, g, id) {
      var i :| 0 <= i < |n.inputs| && n.inputs[i].producer in g && ArtifactProblem(g, n.inputs[i]);
    }
  }

  /** The verdict on an edge, over what the node declares. */
  lemma VerdictMeans(c: Campaign, status: map<string, Standing>, id: string, d: string)
    requires id in c.nodes && d in status
    ensures d in Edges(c.nodes[id]) && EdgeVerdict(Edges(c.nodes[id])[d], status[d]) == Never
            <==> Hopeless(c, status, id, d)
    ensures d in Edges(c.nodes[id]) ==>
      (EdgeVerdict(Edges(c.nodes[id])[d], status[d]) == Met <==> Served(c, status, id, d))
    ensures d !in Edges(c.nodes[id]) ==> Served(c, status, id, d)
  {
    hide Edges, MustSucceed, MustEnd;
    EdgesMean(c.nodes[id], d);
  }

  lemma NeverMeans(c: Campaign, status: map<string, Standing>, id: string)
    requires id in c.nodes && Edges(c.nodes[id]).Keys <= status.Keys
    ensures HasVerdict(c, status, id, Never) <==> exists d :: Hopeless(c, status, id, d)
  {
    hide Edges, MustSucceed, MustEnd, EdgeVerdict;
    forall d | d in status
      ensures d in Edges(c.nodes[id]) && EdgeVerdict(Edges(c.nodes[id])[d], status[d]) == Never
              <==> Hopeless(c, status, id, d)
    {
      VerdictMeans(c, status, id, d);
    }
  }

  lemma ServedMeans(c: Campaign, status: map<string, Standing>, id: string)
    requires id in c.nodes && Edges(c.nodes[id]).Keys <= status.Keys
    ensures !HasVerdict(c, status, id, Never) && !HasVerdict(c, status, id, Later)
            <==> forall d :: d in status ==> Served(c, status, id, d)
  {
    hide Edges, EdgeVerdict, Served;
    forall d | d in status
      ensures d in Edges(c.nodes[id]) ==>
        (EdgeVerdict(Edges(c.nodes[id])[d], status[d]) == Met <==> Served(c, status, id, d))
      ensures d !in Edges(c.nodes[id]) ==> Served(c, status, id, d)
    {
      VerdictMeans(c, status, id, d);
    }
  }

  lemma StatusStands(c: Campaign, g: Groups, status: map<string, Standing>, id: string)
    requires Closed(c.nodes) && c.nodes.Keys <= g.Keys && IsStatus(c, g, status) && id in c.nodes
    ensures Stands(c, g, status, id)
  {
    hide Edges, InputsProblem, Unpublished, HasVerdict, Hopeless, Served, Closed;
    assert status[id] == StandingOf(c, g, status, id);
    UnpublishedMeans(c, g, id);
    NeverMeans(c, status, id);
    ServedMeans(c, status, id);
  }

  /** One walk along the order computes every standing. */
  method ComputeStatus(c: Campaign, g: Groups) returns (status: map<string, Standing>)
    requires WellFormed(c) && c.nodes.Keys <= g.Keys
    ensures IsStatus(c, g, status)
    ensures status.Keys == c.nodes.Keys && forall id :: id in c.nodes ==> Stands(c, g, status, id)
  {
    hide StandingOf, Edges, Placed, Stands;
    status := map[];
    for k := 0 to |c.order|
      invariant PlacedUpTo(c, g, status, k)
    {
      PlaceNext(c, g, status, k);
      status := status[c.order[k] := StandingOf(c, g, status, c.order[k])];
    }
    AllPlaced(c, g, status);
    forall id | id in c.nodes ensures Stands(c, g, status, id) { StatusStands(c, g, status, id); }
  }

  // --------------------------------------------------------------------
  // What to do next

  datatype Action = Submit | Reconcile | Wait | Publish | Nothing

  predicate OutputsVerified(n: Node, a: Attempt) {
    forall i :: 0 <= i < |n.outputs| ==> n.outputs[i] in a.artifacts && a.artifacts[n.outputs[i]].verified
  }

  function NextAction(c: Campaign, g: Groups, s: Standing, id: string): Action
    requires id in c.nodes && id in g
  {
    match s
    case Ready => Submit
    case Doubtful => Reconcile
    case Active => Wait
    case Done =>
      if g[id] != [] && !OutputsVerified(c.nodes[id], g[id][|g[id]| - 1]) then Publish else Nothing
    case _ => Nothing
  }

  /** Succeeded, with every declared output verified. */
  predicate FullyDone(c: Campaign, g: Groups, id: string)
    requires id in c.nodes && id in g
  {
    Success(g[id]).Some? && OutputsVerified(c.nodes[id], g[id][|g[id]| - 1])
  }

  /** The node is failed or held by a problem, or depends on one that is, at some distance. */
  ghost predicate Stuck(c: Campaign, g: Groups, problems: set<string>, id: string)
    requires c.nodes.Keys <= g.Keys
  {
    exists w :: |w| > 0 && Walk(c.nodes, w) && w[0] == id && Cause(g, problems, w[|w| - 1])
  }

  ghost predicate Cause(g: Groups, problems: set<string>, id: string)
    requires id in g
  {
    id in problems || (g[id] != [] && g[id][|g[id]| - 1].phase in {Failed, Cancelled})
  }

  lemma StuckBehind(c: Campaign, g: Groups, problems: set<string>, id: string, d: string)
    requires c.nodes.Keys <= g.Keys && id in c.nodes && d in Deps(c.nodes, id) && Stuck(c, g, problems, d)
    ensures Stuck(c, g, problems, id)
  {
    hide Deps;
    var w :| |w| > 0 && Walk(c.nodes, w) && w[0] == d && Cause(g, problems, w[|w| - 1]);
    var w' := [id] + w;
    forall i | 0 <= i < |w'| - 1 ensures w'[i + 1] in Deps(c.nodes, w'[i]) {
      if i > 0 { assert w[i - 1 + 1] in Deps(c.nodes, w[i - 1]); }
    }
    assert Walk(c.nodes, w');
  }

  lemma StuckHere(c: Campaign, g: Groups, problems: set<string>, id: string)
    requires c.nodes.Keys <= g.Keys && id in c.nodes && Cause(g, problems, id)
    ensures Stuck(c, g, problems, id)
  {
    var w := [id];
    assert Walk(c.nodes, w);
  }

  /** A pass found nothing to do outside the nodes held by problems. */
  ghost predicate Quiescent(c: Campaign, g: Groups, status: map<string, Standing>, problems: set<string>)
    requires Closed(c.nodes) && c.nodes.Keys <= g.Keys
  {
    && IsStatus(c, g, status)
    && forall id :: id in c.nodes && id !in problems ==> NextAction(c, g, status[id], id) == Nothing
  }

  /** A standing short of success comes with attempts that show it. */
  lemma NotMetNotDone(c: Campaign, g: Groups, status: map<string, Standing>, problems: set<string>, d: string)
    requires Closed(c.nodes) && c.nodes.Keys <= g.Keys && Quiescent(c, g, status, problems)
    requires d in c.nodes && status[d] != Done
    ensures !FullyDone(c, g, d)
  {
    hide Edges, Closed, HasVerdict, InputsProblem;
    assert status[d] == StandingOf(c, g, status, d);
  }

  lemma IdleStanding(c: Campaign, g: Groups, status: map<string, Standing>, problems: set<string>, id: string)
    requires Closed(c.nodes) && c.nodes.Keys <= g.Keys && Quiescent(c, g, status, problems)
    requires id in c.nodes && !FullyDone(c, g, id) && !Cause(g, problems, id)
    ensures Edges(c.nodes[id]).Keys <= status.Keys
    ensures InputsProblem(c, g, id) || HasVerdict(c, status, id, Never) || HasVerdict(c, status, id, Later)
  {
    hide Edges, Closed, HasVerdict, InputsProblem;
    assert status[id] == StandingOf(c, g, status, id);
  }

  /** A node that neither acts nor succeeded names a predecessor it is stuck behind. */
  lemma StuckReason(c: Campaign, g: Groups, status: map<string, Standing>, problems: set<string>, id: string)
    requires WellFormed(c) && c.nodes.Keys <= g.Keys && Quiescent(c, g, status, problems)
    requires id in c.nodes && !FullyDone(c, g, id) && !Cause(g, problems, id)
    ensures exists d :: d in Deps(c.nodes, id) && !FullyDone(c, g, d)
  {
    hide Quiescent, Edges, FullyDone;
    IdleStanding(c, g, status, problems, id);
    if InputsProblem(c, g, id) {
      var i :| 0 <= i < |c.nodes[id].inputs| && c.nodes[id].inputs[i].producer in g
               && ArtifactProblem(g, c.nodes[id].inputs[i]);
      InputIsDep(c.nodes[id], i);
      ProblemNotDone(c, g, id, i);
    } else {
      var d :| d in Edges(c.nodes[id]) && EdgeVerdict(Edges(c.nodes[id])[d], status[d]) != Met;
      assert d in Deps(c.nodes, id);
      NotMetNotDone(c, g, status, problems, d);
    }
  }

  lemma ProblemNotDone(c: Campaign, g: Groups, id: string, i: nat)
    requires InputsDeclared(c.nodes) && c.nodes.Keys <= g.Keys && id in c.nodes && i < |c.nodes[id].inputs|
    requires c.nodes[id].inputs[i].producer in c.nodes && ArtifactProblem(g, c.nodes[id].inputs[i])
    ensures !FullyDone(c, g, c.nodes[id].inputs[i].producer)
  {
    var item := c.nodes[id].inputs[i];
    var k :| 0 <= k < |c.nodes[item.producer].outputs| && c.nodes[item.producer].outputs[k] == item.output;
  }

  lemma InputIsDep(n: Node, i: nat)
    requires i < |n.inputs|
    ensures n.inputs[i].producer in Edges(n) && Edges(n)[n.inputs[i].producer]
  {
    hide Edges;
    EdgesMean(n, n.inputs[i].producer);
  }

  /** Whenever a pass finds nothing to do, every node that has not fully succeeded is failed, is
      held by a problem, or depends on such a node at some distance. */
  lemma {:induction false} QuiescentStuck(c: Campaign, g: Groups, status: map<string, Standing>,
                                          problems: set<string>, k: nat)
    requires WellFormed(c) && c.nodes.Keys <= g.Keys && Quiescent(c, g, status, problems)
    requires k < |c.order| && !FullyDone(c, g, c.order[k])
    ensures Stuck(c, g, problems, c.order[k])
    decreases k
  {
    hide FullyDone, Quiescent, Cause, Stuck, Deps;
    var id := c.order[k];
    if Cause(g, problems, id) {
      StuckHere(c, g, problems, id);
    } else {
      StuckReason(c, g, status, problems, id);
      var d :| d in Deps(c.nodes, id) && !FullyDone(c, g, d);
      var j :| 0 <= j < k && c.order[j] == d;
      QuiescentStuck(c, g, status, problems, j);
      StuckBehind(c, g, problems, id, d);
    }
  }

  /** With no failure and no problem, a campaign with nothing to do has succeeded. */
  lemma QuiescentSucceeded(c: Campaign, g: Groups, status: map<string, Standing>)
    requires WellFormed(c) && c.nodes.Keys <= g.Keys && Quiescent(c, g, status, {})
    requires forall id :: id in c.nodes ==> status[id] != Dead
    ensures forall id :: id in c.nodes ==> FullyDone(c, g, id)
  {
    hide FullyDone, Quiescent, Stuck, Closed, Sequenced, InputsDeclared;
    forall id | id in c.nodes ensures FullyDone(c, g, id) {
      var k :| 0 <= k < |c.order| && c.order[k] == id;
      if !FullyDone(c, g, id) {
        QuiescentStuck(c, g, status, {}, k);
        NoneStuck(c, g, status, id);
      }
    }
  }

  lemma NoneStuck(c: Campaign, g: Groups, status: map<string, Standing>, id: string)
    requires Closed(c.nodes) && c.nodes.Keys <= g.Keys && Quiescent(c, g, status, {})
    requires forall x :: x in c.nodes ==> status[x] != Dead
    ensures !Stuck(c, g, {}, id)
  {
    hide Closed, NextAction, StandingOf;
    forall w | |w| > 0 && Walk(c.nodes, w) && w[0] == id ensures !Cause(g, {}, w[|w| - 1]) {
      if Cause(g, {}, w[|w| - 1]) { DeadShows(c, g, status, w[|w| - 1]); }
    }
  }

  lemma DeadShows(c: Campaign, g: Groups, status: map<string, Standing>, id: string)
    requires Closed(c.nodes) && c.nodes.Keys <= g.Keys && IsStatus(c, g, status) && id in c.nodes
    requires Cause(g, {}, id)
    ensures status[id] == Dead
  {
    hide Edges, Closed, HasVerdict, InputsProblem;
    assert status[id] == StandingOf(c, g, status, id);
  }

  // --------------------------------------------------------------------
  // What the controller writes keeps a journal acceptable

  /** A new attempt may be appended: the first when every edge is held, a later one after a
      failure. It is bound to what the producers offer. */
  ghost predicate Appendable(c: Campaign, g: Groups, id: string, a: Attempt)
    requires id in c.nodes && c.nodes.Keys <= g.Keys
  {
    var n := |g[id]|;
    && a.node == id && a.number == n + 1 && a.key == Key(c.digest, id, n + 1)
    && a.retryOf == (if n == 0 then None else Some(n))
    && a.phase == Submitting && a.artifacts == map[] && a.inputs.Keys <= InputNames(c.nodes[id])
    && (n > 0 ==> g[id][n - 1].phase in {Failed, Cancelled})
    && (n == 0 ==> forall d :: d in Edges(c.nodes[id]) ==> d in g && EdgeHeld(g[d], Edges(c.nodes[id])[d]))
    && (forall i :: 0 <= i < |c.nodes[id].inputs| ==> Bound(g, c.nodes[id].inputs[i], a.inputs))
  }

  lemma AppendKeepsNode(c: Campaign, g: Groups, id: string, a: Attempt)
    requires id in c.nodes && c.nodes.Keys <= g.Keys && NodeOk(c, id, g[id]) && Appendable(c, g, id, a)
    ensures NodeOk(c, id, g[id] + [a])
  {
    var after := g[id] + [a];
    forall i | 0 <= i < |after| ensures AttemptOk(c, id, after, i) {
      if i < |g[id]| { assert AttemptOk(c, id, g[id], i); }
    }
  }

  /** What a started node relied on: its edges held and its inputs offered. It goes on holding
      while each producer keeps what it had. */
  ghost predicate Keeps(before: seq<Attempt>, after: seq<Attempt>) {
    && (Success(before).Some? ==> Success(after).Some?)
    && (Finished(before) ==> Finished(after))
    && (forall output :: Offer(before, output).Some? ==> Offer(after, output) == Offer(before, output))
  }

  lemma KeepsStarted(c: Campaign, g: Groups, id: string, after: seq<Attempt>, m: string)
    requires c.nodes.Keys <= g.Keys && id in g && m in c.nodes && m != id && StartedOk(c, g, m)
    requires Keeps(g[id], after)
    ensures StartedOk(c, g[id := after], m)
  {
    hide Edges, Offer, Success, Finished;
  }

  lemma AppendKeeps(c: Campaign, g: Groups, id: string, a: Attempt)
    requires WellFormed(c) && Accepts(c, g) && id in c.nodes && Appendable(c, g, id, a)
    requires id !in Edges(c.nodes[id])
    ensures Accepts(c, g[id := g[id] + [a]])
  {
    hide Edges, Closed, Sequenced, InputsDeclared, Offer, NodeOk;
    var after := g[id] + [a];
    AppendKeepsNode(c, g, id, a);
    AppendRetains(g[id], a);
    forall m | m in c.nodes && m != id ensures StartedOk(c, g[id := after], m) {
      KeepsStarted(c, g, id, after, m);
    }
    OwnStart(c, g, id, a);
  }

  lemma AppendRetains(before: seq<Attempt>, a: Attempt)
    requires before == [] || before[|before| - 1].phase in {Failed, Cancelled}
    ensures Keeps(before, before + [a])
  {
    if Finished(before) {
      var i :| 0 <= i < |before| && Terminal(before[i].phase);
      assert (before + [a])[i] == before[i];
    }
  }

  lemma OwnStart(c: Campaign, g: Groups, id: string, a: Attempt)
    requires WellFormed(c) && Accepts(c, g) && id in c.nodes && Appendable(c, g, id, a)
    requires id !in Edges(c.nodes[id])
    ensures StartedOk(c, g[id := g[id] + [a]], id)
  {
    hide WellFormed, Offer, EdgeHeld, NodeOk, Edges, InputNames;
    assert StartedOk(c, g, id);
    var g' := g[id := g[id] + [a]];
    forall d | d in Edges(c.nodes[id]) ensures d in g' && EdgeHeld(g'[d], Edges(c.nodes[id])[d]) {
      assert d in g && EdgeHeld(g[d], Edges(c.nodes[id])[d]);
    }
    forall i | 0 <= i < |c.nodes[id].inputs| ensures Bound(g', c.nodes[id].inputs[i], a.inputs) {
      InputIsDep(c.nodes[id], i);
      assert Bound(g, c.nodes[id].inputs[i], a.inputs);
    }
  }

  /** The latest attempt may move on: forward, with its job, keeping what is verified. */
  ghost predicate MovesOn(c: Campaign, a: Attempt, a': Attempt) {
    && a.node in c.nodes && a'.node == a.node && a'.number == a.number && a'.key == a.key && a'.retryOf == a.retryOf
    && a'.inputs == a.inputs
    && (Terminal(a.phase) ==> a'.phase == a.phase)
    && (a'.phase in {Accepted, Running, Succeeded} ==> a'.job.Some?)
    && a'.artifacts.Keys <= OutputNames(c.nodes[a.node])
    && (forall o :: o in a.artifacts && a.artifacts[o].verified ==>
          o in a'.artifacts && a'.artifacts[o] == a.artifacts[o])
  }

  lemma MoveKeeps(c: Campaign, g: Groups, id: string, a': Attempt)
    requires WellFormed(c) && Accepts(c, g) && id in c.nodes && g[id] != [] && id !in Edges(c.nodes[id])
    requires g[id][|g[id]| - 1].node == id && MovesOn(c, g[id][|g[id]| - 1], a')
    ensures Accepts(c, g[id := g[id][..|g[id]| - 1] + [a']])
  {
    hide Edges, Closed, Sequenced, InputsDeclared, NodeOk;
    var after := g[id][..|g[id]| - 1] + [a'];
    MoveKeepsNode(c, g, id, a');
    MoveRetains(c, g[id], a');
    forall m | m in c.nodes && m != id ensures StartedOk(c, g[id := after], m) {
      KeepsStarted(c, g, id, after, m);
    }
    MoveOwn(c, g, id, after);
  }

  lemma MoveKeepsNode(c: Campaign, g: Groups, id: string, a': Attempt)
    requires Accepts(c, g) && id in c.nodes && g[id] != []
    requires g[id][|g[id]| - 1].node == id && MovesOn(c, g[id][|g[id]| - 1], a')
    ensures NodeOk(c, id, g[id][..|g[id]| - 1] + [a'])
  {
    hide StartedOk;
    var before, after := g[id], g[id][..|g[id]| - 1] + [a'];
    assert NodeOk(c, id, before);
    forall i | 0 <= i < |after| ensures AttemptOk(c, id, after, i) {
      assert AttemptOk(c, id, before, i);
    }
  }

  lemma MoveRetains(c: Campaign, before: seq<Attempt>, a': Attempt)
    requires before != [] && before[|before| - 1].node in c.nodes && MovesOn(c, before[|before| - 1], a')
    ensures Keeps(before, before[..|before| - 1] + [a'])
  {
    var after := before[..|before| - 1] + [a'];
    if Finished(before) {
      var i :| 0 <= i < |before| && Terminal(before[i].phase);
      assert Terminal(after[i].phase);
    }
  }

  lemma MoveOwn(c: Campaign, g: Groups, id: string, after: seq<Attempt>)
    requires WellFormed(c) && Accepts(c, g) && id in c.nodes && g[id] != [] && after != []
    requires id !in Edges(c.nodes[id]) && after[|after| - 1].inputs == g[id][|g[id]| - 1].inputs
    ensures StartedOk(c, g[id := after], id)
  {
    hide WellFormed, Offer, EdgeHeld, NodeOk, Edges, InputNames;
    assert StartedOk(c, g, id);
    var g' := g[id := after];
    forall d | d in Edges(c.nodes[id]) ensures d in g' && EdgeHeld(g'[d], Edges(c.nodes[id])[d]) {
      assert d in g && EdgeHeld(g[d], Edges(c.nodes[id])[d]);
    }
    forall i | 0 <= i < |c.nodes[id].inputs|
      ensures Bound(g', c.nodes[id].inputs[i], after[|after| - 1].inputs)
    {
      InputIsDep(c.nodes[id], i);
      assert Bound(g, c.nodes[id].inputs[i], after[|after| - 1].inputs);
    }
  }

  /** No node of an accepted campaign depends on itself. */
  lemma NoSelfEdge(c: Campaign, id: string)
    requires WellFormed(c) && id in c.nodes
    ensures id !in Edges(c.nodes[id])
  {
    hide Edges, Closed, InputsDeclared;
    var k :| 0 <= k < |c.order| && c.order[k] == id;
    OrderFacts(c, k);
  }
}
