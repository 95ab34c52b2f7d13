/** What the campaign's checks come to, over the fields they read (src/vq/campaign.py:690-893,
    src/vq/campaign_controller.py:836-888). */
module CampaignLaws {
  import opened Common
  import opened CampaignGraph
  import opened CampaignStatus
  import opened CampaignJournal
  import opened CampaignController
  import opened CampaignCleanup

  // --------------------------------------------------------------------
  // Which journals are accepted

  /** The attempt is numbered, keyed and led up to as it must be, has a job where one is implied,
      and speaks only of what its node declares. */
  ghost predicate AttemptLaw(c: Campaign, id: string, s: seq<Attempt>, i: nat)
    requires id in c.nodes && i < |s|
  {
    && s[i].number == i + 1
    && s[i].key.digest == c.digest && s[i].key.node == id && s[i].key.attempt == i + 1
    && (i == 0 ==> s[i].retryOf == None)
    && (i > 0 ==> s[i].retryOf == Some(i) && (s[i - 1].phase == Failed || s[i - 1].phase == Cancelled))
    && (s[i].job == None ==> s[i].phase == Submitting || s[i].phase == Failed || s[i].phase == Cancelled)
    && (forall o :: o in s[i].artifacts ==> o in c.nodes[id].outputs)
    && (forall x :: x in s[i].inputs ==> Declares(c.nodes[id], x))
  }

  ghost predicate Declares(n: Node, name: string) {
    exists k :: 0 <= k < |n.inputs| && n.inputs[k].name == name
  }

  ghost predicate Succeeds(s: seq<Attempt>) {
    s != [] && s[|s| - 1].phase == Succeeded
  }

  ghost predicate Ends(s: seq<Attempt>) {
    exists a :: a in s && (a.phase == Succeeded || a.phase == Failed || a.phase == Cancelled)
  }

  /** The input is bound to the verified output of its producer's last attempt, a success. */
  ghost predicate BoundLaw(g: Groups, item: Input, inputs: map<string, Binding>) {
    && item.producer in g && Succeeds(g[item.producer])
    && var last := g[item.producer][|g[item.producer]| - 1];
       && item.output in last.artifacts && last.artifacts[item.output].verified
       && item.name in inputs && inputs[item.name].producerAttempt == last.number
       && inputs[item.name].manifest == last.artifacts[item.output].manifest
  }

  /** A started node had everything it needed: every predecessor that must succeed did, every other
      ended at least once, and its last attempt is bound to what its producers hold. */
  ghost predicate StartLaw(c: Campaign, g: Groups, id: string)
    requires id in c.nodes && id in g
  {
    g[id] != [] ==>
      && (forall d :: MustSucceed(c.nodes[id], d) ==> d in g && Succeeds(g[d]))
      && (forall d :: MustEnd(c.nodes[id], d) ==> d in g && Ends(g[d]))
      && (forall k :: 0 <= k < |c.nodes[id].inputs| ==>
            BoundLaw(g, c.nodes[id].inputs[k], g[id][|g[id]| - 1].inputs))
  }

  lemma AttemptMeans(c: Campaign, id: string, s: seq<Attempt>, i: nat)
    requires id in c.nodes && i < |s|
    ensures AttemptOk(c, id, s, i) <==> AttemptLaw(c, id, s, i)
  {
    var n := c.nodes[id];
    forall o ensures o in OutputNames(n) <==> o in n.outputs {
      if o in n.outputs { var k :| 0 <= k < |n.outputs| && n.outputs[k] == o; }
    }
    forall x ensures x in InputNames(n) <==> Declares(n, x) {
      if Declares(n, x) { var k :| 0 <= k < |n.inputs| && n.inputs[k].name == x; }
    }
  }

  lemma BoundMeans(g: Groups, item: Input, inputs: map<string, Binding>)
    ensures Bound(g, item, inputs) <==> BoundLaw(g, item, inputs)
  {
  }

  lemma HeldMeans(s: seq<Attempt>)
    ensures EdgeHeld(s, true) <==> Succeeds(s)
    ensures EdgeHeld(s, false) <==> Ends(s)
  {
    if Ends(s) {
      var a :| a in s && (a.phase == Succeeded || a.phase == Failed || a.phase == Cancelled);
      var i :| 0 <= i < |s| && s[i] == a;
      assert Terminal(s[i].phase);
    }
  }

  lemma StartMeans(c: Campaign, g: Groups, id: string)
    requires id in c.nodes && id in g
    ensures StartedOk(c, g, id) <==> StartLaw(c, g, id)
  {
    hide Edges, MustSucceed, MustEnd, EdgeHeld, Bound, BoundLaw, Succeeds, Ends;
    var n := c.nodes[id];
    forall d ensures d in Edges(n) <==> MustSucceed(n, d) || MustEnd(n, d)
             ensures d in Edges(n) ==> (Edges(n)[d] <==> MustSucceed(n, d)) && (!Edges(n)[d] <==> MustEnd(n, d))
             ensures d in g ==> (EdgeHeld(g[d], true) <==> Succeeds(g[d])) && (EdgeHeld(g[d], false) <==> Ends(g[d]))
    {
      EdgesMean(n, d);
      if d in g { HeldMeans(g[d]); }
    }
    if g[id] != [] {
      var inputs := g[id][|g[id]| - 1].inputs;
      forall k | 0 <= k < |n.inputs| ensures Bound(g, n.inputs[k], inputs) <==> BoundLaw(g, n.inputs[k], inputs) {
        BoundMeans(g, n.inputs[k], inputs);
      }
    }
  }

  /** A journal's groups are accepted exactly when every attempt and every started node keeps the
      law. */
  lemma AcceptsIff(c: Campaign, g: Groups)
    ensures Accepts(c, g) <==>
      && g.Keys == c.nodes.Keys
      && (forall id, i :: id in c.nodes && 0 <= i < |g[id]| ==> AttemptLaw(c, id, g[id], i))
      && (forall id :: id in c.nodes ==> StartLaw(c, g, id))
  {
    hide AttemptOk, AttemptLaw, StartedOk, StartLaw;
    if g.Keys == c.nodes.Keys {
      forall id, i | id in c.nodes && 0 <= i < |g[id]|
        ensures AttemptOk(c, id, g[id], i) <==> AttemptLaw(c, id, g[id], i)
      {
        AttemptMeans(c, id, g[id], i);
      }
      forall id | id in c.nodes ensures StartedOk(c, g, id) <==> StartLaw(c, g, id) { StartMeans(c, g, id); }
    }
  }

  // --------------------------------------------------------------------
  // How a journal is grouped

  /** The listed attempts are those of the node, each once and in the journal's order: `at` is where
      each is. */
  ghost predicate IsListing(js: Journal, id: string, listed: seq<Attempt>, at: seq<nat>) {
    && |at| == |listed| && (forall i, k :: 0 <= i < k < |at| ==> at[i] < at[k])
    && (forall i :: 0 <= i < |at| ==> at[i] < |js| && js[at[i]] == listed[i] && listed[i].node == id)
    && (forall k: nat :: k < |js| && js[k].node == id ==> k in at)
  }

  lemma {:induction false} ListedMeans(js: Journal, id: string) returns (at: seq<nat>)
    ensures IsListing(js, id, Listed(js, id), at)
  {
    hide IsListing;
    at := [];
    if js == [] {
      NoListing(id);
    } else {
      var n := |js| - 1;
      at := ListedMeans(js[..n], id);
      ListingNext(js, id, Listed(js[..n], id), at);
      if js[n].node == id { at := at + [n]; }
    }
  }

  lemma NoListing(id: string)
    ensures IsListing([], id, [], [])
  {
  }

  lemma ListingNext(js: Journal, id: string, listed: seq<Attempt>, at: seq<nat>)
    requires js != [] && IsListing(js[..|js| - 1], id, listed, at)
    ensures var n := |js| - 1;
            if js[n].node == id then IsListing(js, id, listed + [js[n]], at + [n])
            else IsListing(js, id, listed + [], at)
  {
    var rest, n := js[..|js| - 1], |js| - 1;
    assert forall k: nat :: k < n ==> rest[k] == js[k];
    assert listed + [] == listed;
  }

  lemma {:induction false} InsertKeeps(s: seq<Attempt>, a: Attempt)
    ensures multiset(Insert(s, a)) == multiset(s) + multiset{a}
  {
    if s != [] && s[|s| - 1].number > a.number {
      InsertKeeps(s[..|s| - 1], a);
      assert s == s[..|s| - 1] + [s[|s| - 1]];
    }
  }

  lemma InsertFrom(s: seq<Attempt>, a: Attempt, i: nat)
    requires i < |Insert(s, a)|
    ensures Insert(s, a)[i] in s || Insert(s, a)[i] == a
  {
    hide Insert;
    InsertKeeps(s, a);
    assert Insert(s, a)[i] in multiset(Insert(s, a));
  }

  lemma {:induction false} InsertOrders(s: seq<Attempt>, a: Attempt)
    requires Ordered(s)
    ensures Ordered(Insert(s, a))
  {
    if s != [] && s[|s| - 1].number > a.number {
      var front, last := s[..|s| - 1], s[|s| - 1];
      InsertOrders(front, a);
      forall i | 0 <= i < |Insert(front, a)| ensures Insert(front, a)[i].number <= last.number {
        InsertFrom(front, a, i);
      }
    }
  }

  /** Sorting lists the same attempts in order of their numbers. */
  lemma {:induction false} SortMeans(s: seq<Attempt>)
    ensures Ordered(Sort(s)) && multiset(Sort(s)) == multiset(s)
  {
    if s != [] {
      hide Insert;
      SortMeans(s[..|s| - 1]);
      InsertKeeps(Sort(s[..|s| - 1]), s[|s| - 1]);
      InsertOrders(Sort(s[..|s| - 1]), s[|s| - 1]);
      assert s == s[..|s| - 1] + [s[|s| - 1]];
    }
  }

  // --------------------------------------------------------------------
  // What a standing leads to

  /** A ready node is submitted, one in doubt reconciled, an active one waited for, and one that is
      done published while an output of its last attempt is not verified. Nothing else acts. */
  lemma ActionMeans(c: Campaign, g: Groups, s: Standing, id: string)
    requires id in c.nodes && id in g
    ensures NextAction(c, g, s, id) == Submit <==> s == Ready
    ensures NextAction(c, g, s, id) == Reconcile <==> s == Doubtful
    ensures NextAction(c, g, s, id) == Wait <==> s == Active
    ensures NextAction(c, g, s, id) == Publish <==>
      && s == Done && g[id] != []
      && exists o :: o in c.nodes[id].outputs && LacksIn(g[id][|g[id]| - 1], o)
  {
    if s == Done && g[id] != [] {
      var a := g[id][|g[id]| - 1];
      if o :| o in c.nodes[id].outputs && LacksIn(a, o) {
        var k :| 0 <= k < |c.nodes[id].outputs| && c.nodes[id].outputs[k] == o;
      }
      if !OutputsVerified(c.nodes[id], a) {
        var k :| 0 <= k < |c.nodes[id].outputs| && LacksIn(a, c.nodes[id].outputs[k]);
        assert c.nodes[id].outputs[k] in c.nodes[id].outputs;
      }
    }
  }

  ghost predicate LacksIn(a: Attempt, output: string) {
    output !in a.artifacts || !a.artifacts[output].verified
  }

  // --------------------------------------------------------------------
  // What a cleanup may take

  /** A leftover's name starts with a dot and ends in `.staging` or `.copy`. */
  lemma LeftoverMeans(name: string)
    ensures LeftoverName(name) <==>
      "." <= name && exists stem :: name == stem + ".staging" || name == stem + ".copy"
  {
    if LeftoverName(name) {
      if EndsWith(name, ".staging") { assert name == name[..|name| - 8] + ".staging"; }
      if EndsWith(name, ".copy") { assert name == name[..|name| - 5] + ".copy"; }
    }
    if stem :| name == stem + ".staging" || name == stem + ".copy" {
      if name == stem + ".staging" { EndsHere(stem, ".staging"); }
      if name == stem + ".copy" { EndsHere(stem, ".copy"); }
    }
  }

  /** A payload is spent when some attempt it was staged for is past its submission. */
  lemma SpentMeans(js: Journal, name: PayloadName)
    ensures PayloadSpent(js, name) <==>
      exists a :: a in js && a.node == name.node && a.number == name.attempt && a.phase != Submitting
  {
    if a :| a in js && a.node == name.node && a.number == name.attempt && a.phase != Submitting {
      var i :| 0 <= i < |js| && js[i] == a;
    }
  }

  /** The node has an input from that output. */
  ghost predicate Reads(c: Campaign, m: string, id: string, output: string) {
    m in c.nodes && exists item :: item in c.nodes[m].inputs && item.producer == id && item.output == output
  }

  lemma ReadsMeans(c: Campaign, m: string, id: string, output: string)
    requires m in c.nodes
    ensures Consumes(c, m, id, output) <==> Reads(c, m, id, output)
  {
    if Reads(c, m, id, output) {
      var item :| item in c.nodes[m].inputs && item.producer == id && item.output == output;
      var i :| 0 <= i < |c.nodes[m].inputs| && c.nodes[m].inputs[i] == item;
    }
  }

  /** An artifact is released when it is a declared output of its node's last attempt, a success,
      some node reads it, and every node that reads any output of that node has succeeded. */
  lemma ReleasedMeans(c: Campaign, g: Groups, slot: Slot)
    requires c.nodes.Keys <= g.Keys
    ensures Released(c, g, slot) <==>
      && slot.node in c.nodes && Succeeds(g[slot.node])
      && g[slot.node][|g[slot.node]| - 1].number == slot.attempt && slot.output in c.nodes[slot.node].outputs
      && (exists m :: Reads(c, m, slot.node, slot.output))
      && (forall m, o :: Reads(c, m, slot.node, o) ==> Succeeds(g[m]))
  {
    if slot.node in c.nodes {
      var n := c.nodes[slot.node];
      if slot.output in n.outputs { var k :| 0 <= k < |n.outputs| && n.outputs[k] == slot.output; }
      forall m | m in c.nodes ensures Consumes(c, m, slot.node, slot.output) <==> Reads(c, m, slot.node, slot.output) {
        ReadsMeans(c, m, slot.node, slot.output);
      }
      UnretainedMeans(c, g, slot.node);
    }
  }

  lemma UnretainedMeans(c: Campaign, g: Groups, id: string)
    requires c.nodes.Keys <= g.Keys
    ensures Unretained(c, g, id) <==> forall m, o :: Reads(c, m, id, o) ==> Succeeds(g[m])
  {
    if Unretained(c, g, id) {
      forall m, o | Reads(c, m, id, o) ensures Succeeds(g[m]) {
        var item :| item in c.nodes[m].inputs && item.producer == id && item.output == o;
        var i :| 0 <= i < |c.nodes[m].inputs| && c.nodes[m].inputs[i] == item;
      }
    }
    if forall m, o :: Reads(c, m, id, o) ==> Succeeds(g[m]) {
      forall m, i | m in c.nodes && 0 <= i < |c.nodes[m].inputs| && c.nodes[m].inputs[i].producer == id
        ensures Success(g[m]).Some?
      {
        assert Reads(c, m, id, c.nodes[m].inputs[i].output);
      }
    }
  }

  /** An output is needed while no node reads it, or one that does has not succeeded. */
  lemma NeededMeans(c: Campaign, g: Groups, id: string, output: string)
    requires c.nodes.Keys <= g.Keys
    ensures Needed(c, g, id, output) <==>
      || (forall m :: !Reads(c, m, id, output))
      || (exists m :: Reads(c, m, id, output) && !Succeeds(g[m]))
  {
    forall m | m in c.nodes ensures Consumes(c, m, id, output) <==> Reads(c, m, id, output) {
      ReadsMeans(c, m, id, output);
    }
  }
}
