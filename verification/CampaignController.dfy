/** The campaign controller (src/vq/campaign_controller.py:540-912).

    Its durable state is the journal, the run directory's payloads and artifacts, and the queue's
    own jobs. Every method may stop at a crash between two durable steps; what it guarantees of
    that state it guarantees then too. */
module CampaignController {
  import opened Common
  import opened CampaignGraph
  import opened CampaignStatus
  import opened CampaignJournal

  /** The queue's record of one accepted key. Once finished it stays as it is. */
  datatype Job = Job(ref: JobRef, phase: Phase)

  type Jobs = map<Key, Job>

  datatype Slot = Slot(node: string, attempt: nat, output: string)

  datatype PayloadName = PayloadName(node: string, attempt: nat)

  /** The staged inputs of an attempt, by input name. */
  type Payload = map<string, Tree>

  datatype Store = Store(
    payloads: map<PayloadName, Payload>, artifacts: map<Slot, Tree>, manifests: map<Slot, Manifest>)

  /** What an interrupted stage or publish leaves beside payloads and artifacts: a payload being
      built, an artifact being copied, a directory of fetched outputs. */
  datatype Debris = Building(payload: PayloadName) | Copying(slot: Slot) | Incoming(node: string, attempt: nat)

  // --------------------------------------------------------------------
  // What holds between the journal and the queue

  /** The key belongs to a recorded attempt. */
  ghost predicate Recorded(g: Groups, k: Key) {
    k.node in g && exists i :: 0 <= i < |g[k.node]| && g[k.node][i].key == k
  }

  /** An attempt names only the job its key was accepted as, and is finished only when that is. */
  ghost predicate AttemptBacked(a: Attempt, jobs: Jobs) {
    && (a.job.Some? ==> a.key in jobs && jobs[a.key].ref == a.job.value)
    && (Terminal(a.phase) ==> a.key in jobs && Terminal(jobs[a.key].phase))
  }

  ghost predicate QueueOk(g: Groups, jobs: Jobs, sent: set<Key>) {
    && (forall k :: k in jobs ==> Recorded(g, k))
    && (forall k :: k in sent ==> Recorded(g, k))
    && (forall id, i :: id in g && 0 <= i < |g[id]| ==> AttemptBacked(g[id][i], jobs))
  }

  /** The queue accepts each key once, and a job only moves forward. */
  predicate JobsAdvance(jobs: Jobs, jobs': Jobs, sent: set<Key>) {
    && (forall k :: k in jobs ==>
          && k in jobs' && jobs'[k].ref == jobs[k].ref
          && (Terminal(jobs[k].phase) ==> jobs'[k] == jobs[k]))
    && (forall k :: k in jobs' && k !in jobs ==> k in sent)
  }

  lemma AdvanceKeeps(g: Groups, jobs: Jobs, jobs': Jobs, sent: set<Key>)
    requires QueueOk(g, jobs, sent) && JobsAdvance(jobs, jobs', sent)
    ensures QueueOk(g, jobs', sent)
  {
    hide Recorded;
    forall id, i | id in g && 0 <= i < |g[id]| ensures AttemptBacked(g[id][i], jobs') {
      assert AttemptBacked(g[id][i], jobs);
    }
  }

  lemma RecordedStays(g: Groups, id: string, after: seq<Attempt>, k: Key)
    requires Recorded(g, k) && id in g && |g[id]| <= |after|
    requires forall i :: 0 <= i < |g[id]| ==> after[i].key == g[id][i].key
    ensures Recorded(g[id := after], k)
  {
    var i :| 0 <= i < |g[k.node]| && g[k.node][i].key == k;
    if k.node == id { assert after[i].key == k; }
  }

  /** Rewriting or adding the newest attempt keeps the agreement if that attempt is backed. */
  lemma WriteKeepsQueue(g: Groups, id: string, after: seq<Attempt>, jobs: Jobs, sent: set<Key>)
    requires QueueOk(g, jobs, sent) && id in g && |g[id]| <= |after| && after != []
    requires forall i :: 0 <= i < |g[id]| ==> after[i].key == g[id][i].key
    requires forall i :: 0 <= i < |after| - 1 ==> i < |g[id]| && after[i] == g[id][i]
    requires AttemptBacked(after[|after| - 1], jobs)
    ensures QueueOk(g[id := after], jobs, sent)
  {
    hide Recorded, AttemptBacked;
    var g' := g[id := after];
    forall k | Recorded(g, k) ensures Recorded(g', k) { RecordedStays(g, id, after, k); }
    forall x, i | x in g' && 0 <= i < |g'[x]| ensures AttemptBacked(g'[x][i], jobs) {
      if x == id && i < |after| - 1 {
        var b := after[i];
        assert i < |g[id]| && b == g[id][i];
        assert AttemptBacked(g[id][i], jobs);
      }
    }
  }

  /** Each attempt has its own key, so at most one job, and a node's jobs are all finished but
      possibly the newest attempt's. */
  lemma OneUnfinishedJob(c: Campaign, g: Groups, jobs: Jobs, sent: set<Key>, k: Key, k': Key)
    requires Accepts(c, g) && QueueOk(g, jobs, sent) && k in jobs && k' in jobs && k.node == k'.node
    requires !Terminal(jobs[k].phase) && !Terminal(jobs[k'].phase)
    ensures k == k'
  {
    hide Accepts;
    UnfinishedIsNewest(c, g, jobs, sent, k);
    UnfinishedIsNewest(c, g, jobs, sent, k');
  }

  lemma UnfinishedIsNewest(c: Campaign, g: Groups, jobs: Jobs, sent: set<Key>, k: Key)
    requires Accepts(c, g) && QueueOk(g, jobs, sent) && k in jobs && !Terminal(jobs[k].phase)
    ensures k.node in g && g[k.node] != [] && g[k.node][|g[k.node]| - 1].key == k
  {
    hide StartedOk;
    assert Recorded(g, k);
    var i :| 0 <= i < |g[k.node]| && g[k.node][i].key == k;
    assert AttemptBacked(g[k.node][i], jobs);
    assert NodeOk(c, k.node, g[k.node]);
    assert i < |g[k.node]| - 1 ==> AttemptOk(c, k.node, g[k.node], i + 1);
  }

  // --------------------------------------------------------------------
  // What holds between the journal and the run directory

  ghost function Staged(inputs: map<string, Binding>): Payload {
    map n | n in inputs :: inputs[n].manifest.content
  }

  /** Some node may still stage the output: no node consumes it, or one that has not succeeded. */
  predicate Needed(c: Campaign, g: Groups, id: string, output: string)
    requires c.nodes.Keys <= g.Keys
  {
    || (forall m :: m in c.nodes ==> !Consumes(c, m, id, output))
    || (exists m :: m in c.nodes && Consumes(c, m, id, output) && Success(g[m]).None?)
  }

  predicate Consumes(c: Campaign, m: string, id: string, output: string)
    requires m in c.nodes
  {
    exists i :: 0 <= i < |c.nodes[m].inputs| && c.nodes[m].inputs[i].producer == id
                && c.nodes[m].inputs[i].output == output
  }

  predicate VerifiedIn(a: Attempt, output: string) {
    output in a.artifacts && a.artifacts[output].verified
  }

  /** A verified record names a manifest that is on file and, while the output is needed, that
      describes the stored bytes. */
  ghost predicate SlotOk(c: Campaign, g: Groups, store: Store, a: Attempt, output: string)
    requires c.nodes.Keys <= g.Keys
  {
    VerifiedIn(a, output) ==>
      var slot, m := Slot(a.node, a.number, output), a.artifacts[output].manifest;
      && slot in store.manifests && store.manifests[slot] == m
      && (Needed(c, g, a.node, output) ==> slot in store.artifacts && store.artifacts[slot] == m.content)
  }

  ghost predicate SlotsOk(c: Campaign, g: Groups, store: Store, a: Attempt)
    requires c.nodes.Keys <= g.Keys
  {
    forall output :: SlotOk(c, g, store, a, output)
  }

  /** An attempt that may have to be sent again has its payload, exactly as staged. */
  ghost predicate PayloadOk(store: Store, a: Attempt) {
    a.phase == Submitting ==>
      var name := PayloadName(a.node, a.number);
      name in store.payloads && store.payloads[name] == Staged(a.inputs)
  }

  ghost predicate StoreOk(c: Campaign, g: Groups, store: Store)
    requires c.nodes.Keys <= g.Keys
  {
    forall id, i :: id in g && 0 <= i < |g[id]| ==>
      PayloadOk(store, g[id][i]) && SlotsOk(c, g, store, g[id][i])
  }

  /** Success is final, so what is not needed stays not needed. */
  lemma NeededShrinks(c: Campaign, g: Groups, id: string, after: seq<Attempt>, x: string, output: string)
    requires c.nodes.Keys <= g.Keys && id in g && (Success(g[id]).Some? ==> Success(after).Some?)
    requires Needed(c, g[id := after], x, output)
    ensures Needed(c, g, x, output)
  {
    hide Success, Consumes;
    if exists m :: m in c.nodes && Consumes(c, m, x, output) {
      var m :| m in c.nodes && Consumes(c, m, x, output) && Success(g[id := after][m]).None?;
      assert Success(g[m]).None?;
    }
  }

  lemma WriteKeepsStore(c: Campaign, g: Groups, id: string, after: seq<Attempt>, store: Store)
    requires c.nodes.Keys <= g.Keys && StoreOk(c, g, store) && id in g && after != []
    requires Success(g[id]).Some? ==> Success(after).Some?
    requires forall i :: 0 <= i < |after| - 1 ==> i < |g[id]| && after[i] == g[id][i]
    requires PayloadOk(store, after[|after| - 1])
    requires SlotsOk(c, g, store, after[|after| - 1])
    ensures StoreOk(c, g[id := after], store)
  {
    hide PayloadOk, Needed, Success;
    var g' := g[id := after];
    forall x, i | x in g' && 0 <= i < |g'[x]|
      ensures PayloadOk(store, g'[x][i]) && SlotsOk(c, g', store, g'[x][i])
    {
      var a := g'[x][i];
      assert PayloadOk(store, a) && SlotsOk(c, g, store, a);
      forall output ensures SlotOk(c, g', store, a, output) {
        assert SlotOk(c, g, store, a, output);
        if Needed(c, g', a.node, output) { NeededShrinks(c, g, id, after, a.node, output); }
      }
    }
  }

  /** What a node that has not succeeded would stage is there to be staged. */
  lemma OfferIsStored(c: Campaign, g: Groups, store: Store, id: string, i: nat)
    requires WellFormed(c) && Accepts(c, g) && StoreOk(c, g, store) && id in c.nodes
    requires Success(g[id]).None? && i < |c.nodes[id].inputs|
    requires c.nodes[id].inputs[i].producer in g
    requires NamedAfterGroup(g)
    ensures var item := c.nodes[id].inputs[i];
            Offer(g[item.producer], item.output).Some? ==>
              var b := Offer(g[item.producer], item.output).value;
              var slot := Slot(item.producer, b.producerAttempt, item.output);
              && slot in store.artifacts && store.artifacts[slot] == b.manifest.content
              && slot in store.manifests && store.manifests[slot] == b.manifest
  {
    hide WellFormed, PayloadOk;
    var item := c.nodes[id].inputs[i];
    if Offer(g[item.producer], item.output).Some? {
      var n := |g[item.producer]| - 1;
      assert Consumes(c, id, item.producer, item.output);
      assert SlotsOk(c, g, store, g[item.producer][n]);
      assert SlotOk(c, g, store, g[item.producer][n], item.output);
    }
  }

  /** Every attempt is filed under its own node. */
  ghost predicate NamedAfterGroup(g: Groups) {
    forall id, i :: id in g && 0 <= i < |g[id]| ==> g[id][i].node == id
  }

  lemma {:induction false} ListedNamed(js: Journal, id: string)
    ensures forall i :: 0 <= i < |Listed(js, id)| ==> Listed(js, id)[i].node == id
  {
    if js != [] { ListedNamed(js[..|js| - 1], id); }
  }

  lemma GroupsNamed(c: Campaign, js: Journal)
    ensures NamedAfterGroup(ListedGroups(c, js))
  {
    hide Listed;
    forall id | id in c.nodes ensures forall i :: 0 <= i < |Listed(js, id)| ==> Listed(js, id)[i].node == id {
      ListedNamed(js, id);
    }
  }

  // --------------------------------------------------------------------
  // The controller

  function Progress(p: Phase): nat {
    match p
    case Submitting => 0
    case Accepted => 1
    case Running => 2
    case _ => 3
  }

  lemma BackedJob(a: Attempt, jobs: Jobs)
    requires AttemptBacked(a, jobs) && a.job.Some?
    ensures a.key in jobs
  {
  }

  lemma FurtherOn(seen: Phase, p: Phase)
    requires p in {Accepted, Running}
    ensures Progress(seen) > Progress(p) <==> Terminal(seen) || (seen == Running && p == Accepted)
  {
  }

  datatype Ended = Fine | Crashed | AskAgain | Held

  class Controller {
    const c: Campaign
    var journal: Journal
    var jobs: Jobs
    var sent: set<Key>
    var store: Store
    var debris: set<Debris>
    /** Nodes that need someone to act, and nodes whose queue call failed this pass. */
    var problems: set<string>
    var transient: set<string>

    ghost function G(): Groups
      reads this
    {
      ListedGroups(c, journal)
    }

    ghost predicate Valid()
      reads this
    {
      && WellFormed(c) && InOrder(c, journal) && Known(c, journal) && Accepts(c, G())
      && QueueOk(G(), jobs, sent) && StoreOk(c, G(), store)
    }

    constructor (c: Campaign)
      requires WellFormed(c)
      ensures Valid() && this.c == c && journal == [] && jobs == map[] && problems == {}
    {
      hide Accepts, WellFormed, QueueOk, StoreOk, InOrder;
      this.c := c;
      journal, jobs, sent, problems, transient := [], map[], {}, {}, {};
      store, debris := Store(map[], map[], map[]), {};
      new;
      EmptyHolds(c);
    }

    /** The queue and the network go on; a request that left earlier may only now arrive. */
    method Others()
      requires Valid()
      modifies this`jobs
      ensures Valid() && JobsAdvance(old(jobs), jobs, sent)
    {
      var later: Jobs := *;
      if JobsAdvance(jobs, later, sent) {
        AdvanceKeeps(G(), jobs, later, sent);
        jobs := later;
      }
    }

    /** Record a new attempt; the check that `save` makes always passes. */
    method Append(id: string, a: Attempt)
      requires Valid() && id in c.nodes && Appendable(c, G(), id, a) && PayloadOk(store, a)
      requires a.job.None?
      modifies this`journal
      ensures Valid() && JournalOk(c, c.digest, journal) && G() == old(G())[id := old(G())[id] + [a]]
    {
      hide Accepts, WellFormed, QueueOk, StoreOk, InOrder, Listed, Appendable;
      ghost var g := G();
      AppendableFacts(c, g, id, a);
      GroupsAreListed(c, journal);
      AppendAccepted(c, journal, id, a);
      AppendGroups(c, journal, id, a);
      journal := journal + [a];
      GroupsAreListed(c, journal);
      AppendStored(c, g, id, a, jobs, sent, store);
    }

    /** Replace a node's latest attempt; again the check always passes. */
    method Replace(id: string, a: Attempt)
      requires Valid() && id in c.nodes && G()[id] != [] && a.node == id
      requires MovesOn(c, G()[id][|G()[id]| - 1], a) && AttemptBacked(a, jobs)
      requires PayloadOk(store, a) && SlotsOk(c, G(), store, a)
      requires Success(G()[id]).Some? ==> a.phase == Succeeded
      modifies this`journal
      ensures Valid() && JournalOk(c, c.digest, journal)
      ensures G() == old(G())[id := old(G())[id][..|old(G())[id]| - 1] + [a]]
    {
      hide Accepts, WellFormed, QueueOk, StoreOk, InOrder, Listed, AttemptBacked, PayloadOk, SlotsOk, MovesOn;
      hide Success, JournalOk;
      ghost var g := G();
      var k := LastOf(journal, id);
      ReplacedOk(c, journal, k, id, a, jobs, sent, store);
      journal := journal[k := a];
    }

    /** Bind each input to what its producer offers, as the journal lists it. */
    method Bind(id: string) returns (bindings: Option<map<string, Binding>>)
      requires Valid() && id in c.nodes
      ensures bindings.None? <==> exists i :: 0 <= i < |c.nodes[id].inputs| && Offered(c, G(), id, i).None?
      ensures bindings.Some? ==> bindings.value.Keys == InputNames(c.nodes[id])
      ensures bindings.Some? ==> AllBound(c, G(), id, bindings.value)
    {
      hide Accepts, QueueOk, StoreOk, InOrder, Listed, Closed, Sequenced, Offer;
      var inputs := c.nodes[id].inputs;
      var found: map<string, Binding> := map[];
      for k := 0 to |inputs|
        invariant found.Keys == set i | 0 <= i < k :: inputs[i].name
        invariant forall i :: 0 <= i < k ==> Offered(c, G(), id, i).Some? && Bound(G(), inputs[i], found)
      {
        var offer := Offer(Listed(journal, inputs[k].producer), inputs[k].output);
        assert Offered(c, G(), id, k) == offer;
        if offer.None? { return None; }
        found := found[inputs[k].name := offer.value];
      }
      bindings := Some(found);
    }

    /** Copy and verify the inputs into the payload of an attempt not yet recorded. What is
        offered is always there to be copied, so only a producer that offers nothing, or the
        machine itself, holds this up. */
    method Stage(id: string, number: nat) returns (e: Ended, bindings: map<string, Binding>)
      requires Valid() && id in c.nodes && Success(G()[id]).None? && number > |G()[id]|
      modifies this`store, this`debris
      ensures Valid()
      ensures e == Fine ==>
        && bindings.Keys == InputNames(c.nodes[id]) && AllBound(c, G(), id, bindings)
        && store == old(store).(payloads := old(store).payloads[PayloadName(id, number) := Staged(bindings)])
        && debris == old(debris) - {Building(PayloadName(id, number))}
      ensures e == Crashed ==>
        && store == old(store).(payloads := old(store).payloads - {PayloadName(id, number)})
        && debris == old(debris) + {Building(PayloadName(id, number))}
      ensures e != Fine ==> debris <= old(debris) + {Building(PayloadName(id, number))}
    {
      hide Accepts, QueueOk, StoreOk, InOrder, Listed, WellFormed, Success, AllBound;
      bindings := map[];
      var bound := Bind(id);
      if bound.None? { return Held, bindings; }
      bindings := bound.value;
      var name := PayloadName(id, number);
      FreshName(c, journal, id, number);
      OtherPayload(c, G(), store, store.(payloads := store.payloads - {name}), name);
      store := store.(payloads := store.payloads - {name});
      debris := debris + {Building(name)};
      if * { return Crashed, bindings; }
      if * { return Held, bindings; }
      var payload := CopyInputs(id, bindings);
      OtherPayload(c, G(), store, store.(payloads := store.payloads[name := payload]), name);
      store := store.(payloads := store.payloads[name := payload]);
      debris := debris - {Building(name)};
      e := Fine;
    }

    /** Each input's stored bytes, checked against the manifest it is bound to. */
    method CopyInputs(id: string, bindings: map<string, Binding>) returns (payload: Payload)
      requires Valid() && id in c.nodes && Success(G()[id]).None?
      requires bindings.Keys == InputNames(c.nodes[id]) && AllBound(c, G(), id, bindings)
      ensures payload == Staged(bindings)
    {
      hide Accepts, QueueOk, StoreOk, InOrder, Listed, WellFormed, Success, Offer;
      payload := map[];
      var inputs := c.nodes[id].inputs;
      GroupsNamed(c, journal);
      for k := 0 to |inputs|
        invariant payload.Keys == set i | 0 <= i < k :: inputs[i].name
        invariant forall n :: n in payload ==> n in bindings && payload[n] == bindings[n].manifest.content
      {
        assert Bound(G(), inputs[k], bindings);
        OfferIsStored(c, G(), store, id, k);
        var b := bindings[inputs[k].name];
        var copied := store.artifacts[Slot(inputs[k].producer, b.producerAttempt, inputs[k].output)];
        payload := payload[inputs[k].name := copied];
      }
    }

    /** Start a node that is ready. The attempt is recorded before anything is sent. */
    method SubmitNew(id: string) returns (e: Ended)
      requires Valid() && id in c.nodes && G()[id] == []
      requires forall d :: d in Edges(c.nodes[id]) ==> d in G() && EdgeHeld(G()[d], Edges(c.nodes[id])[d])
      modifies this`store, this`debris, this`journal, this`sent, this`jobs
      ensures Valid()
      ensures e != Fine ==> G() == old(G()) || Begun(old(G()), G(), id)
      ensures e == Fine ==> G().Keys == old(G()).Keys && |G()[id]| == 1 && Taken(G()[id][0], jobs)
    {
      hide Accepts, QueueOk, StoreOk, InOrder, Listed, WellFormed, Edges, EdgeHeld;
      var bindings;
      e, bindings := Stage(id, 1);
      if e != Fine { return; }
      var a := Attempt(id, 1, None, Key(c.digest, id, 1), Submitting, None, bindings, map[]);
      Append(id, a);
      if * { return Crashed; }
      e := Send(id);
    }

    /** Send, or send again, the payload of a recorded attempt under its own key. The payload is
        always there, exactly as staged. Done means the queue has that key's job. */
    method Send(id: string) returns (e: Ended)
      requires Valid() && id in c.nodes && G()[id] != [] && G()[id][|G()[id]| - 1].phase == Submitting
      modifies this`journal, this`sent, this`jobs
      ensures Valid()
      ensures e != Fine ==> G() == old(G())
      ensures e == Fine ==>
        && G().Keys == old(G()).Keys && |G()[id]| == |old(G())[id]|
        && Taken(G()[id][|G()[id]| - 1], jobs) && Moved(old(G()), G(), id)
      ensures old(G())[id][|old(G())[id]| - 1].key in sent
    {
      hide Accepts, QueueOk, StoreOk, InOrder, Listed, WellFormed, MovesOn, AttemptBacked, PayloadOk, SlotsOk, Success;
      hide Moved, ListedGroups, Known;
      GroupIsListed(c, journal, id);
      var k := LastOf(journal, id);
      ListedLast(journal, k);
      var a := journal[k];
      NewestFacts(c, journal, id, store);
      PayloadThere(store, a);
      Dispatch(a.key);
      if * { return Crashed; }
      if * { return AskAgain; }
      if a.key !in jobs { return Held; }
      var a' := a.(phase := Accepted, job := Some(jobs[a.key].ref));
      SameArtifacts(c, G(), store, a, a');
      TakeOk(c, G()[id], store, jobs, a, a');
      ghost var g := G();
      Replace(id, a');
      MovedHere(g, G(), id, a');
      e := Fine;
    }

    /** Ask the queue about the job; true when that moved the attempt on, which it does exactly
        when the job has ended, or runs and the journal still has it as accepted. */
    method Observe(id: string) returns (e: Ended, moved: bool)
      requires Valid() && id in c.nodes && G()[id] != []
      requires G()[id][|G()[id]| - 1].phase in {Accepted, Running}
      modifies this`journal, this`jobs
      ensures Valid()
      ensures e != Fine || !moved ==> G() == old(G())
      ensures e == Fine ==>
        && old(G())[id][|old(G())[id]| - 1].key in jobs
        && var was := old(G())[id][|old(G())[id]| - 1]; var seen := jobs[was.key].phase;
           && (moved <==> Terminal(seen) || (seen == Running && was.phase == Accepted))
           && (moved ==> && Moved(old(G()), G(), id) && |G()[id]| == |old(G())[id]|
                         && G()[id][|G()[id]| - 1] == was.(phase := seen))
    {
      hide Accepts, StoreOk, InOrder, Listed, WellFormed, Recorded, Progress, Terminal, MovesOn, PayloadOk, SlotsOk;
      hide AttemptBacked, Success, Moved, ListedGroups, Known;
      GroupIsListed(c, journal, id);
      moved := false;
      Others();
      var k := LastOf(journal, id);
      ListedLast(journal, k);
      var a := journal[k];
      NewestFacts(c, journal, id, store);
      assert AttemptBacked(G()[id][|G()[id]| - 1], jobs);
      BackedJob(a, jobs);
      if * { return Crashed, false; }
      if * { return AskAgain, false; }
      if * { return Held, false; }
      var seen := jobs[a.key].phase;
      FurtherOn(seen, a.phase);
      if Progress(seen) > Progress(a.phase) {
        var a' := a.(phase := seen);
        SameArtifacts(c, G(), store, a, a');
        SeenOk(c, G()[id], store, jobs, a, a');
        ghost var g := G();
        Replace(id, a');
        MovedHere(g, G(), id, a');
        moved := true;
      }
      e := Fine;
    }

    /** Fetch, hash and file each output that is not verified yet, then record them all. Done
        means every output is recorded, and what was verified is recorded as it was. */
    method Publish(id: string) returns (e: Ended)
      requires Valid() && id in c.nodes && Success(G()[id]).Some?
      modifies this`store, this`debris, this`journal
      ensures Valid()
      ensures e != Fine ==> G() == old(G()) && Incoming(id, G()[id][|G()[id]| - 1].number) in debris
      ensures e == Fine ==>
        && Moved(old(G()), G(), id) && |G()[id]| == |old(G())[id]|
        && AllFiled(c.nodes[id].outputs, old(G())[id][|G()[id]| - 1], G()[id][|G()[id]| - 1], |c.nodes[id].outputs|)
    {
      hide Accepts, QueueOk, StoreOk, InOrder, Listed, WellFormed, SlotsOk, MovesOn, AllFiled, Moved, Success;
      hide PayloadOk, AttemptBacked, VerifiedIn, ListedGroups, Known;
      GroupIsListed(c, journal, id);
      SuccessHas(G()[id]);
      var k := LastOf(journal, id);
      ListedLast(journal, k);
      var a := journal[k];
      debris := debris + {Incoming(id, a.number)};
      var filed;
      e, filed := FileAll(id, a);
      if e != Fine { return; }
      FiledShape(c, a, filed);
      SentNoMore(store, filed);
      Backed(c, G(), jobs, sent, id, filed);
      ghost var g := G();
      Replace(id, filed);
      MovedHere(g, G(), id, filed);
      if * { return Fine; }  // the fetched copies may outlive the record
      debris := debris - {Incoming(id, a.number)};
    }

    /** The outputs one by one; what is already verified is left as it is. */
    method FileAll(id: string, a: Attempt) returns (e: Ended, filed: Attempt)
      requires Valid() && id in c.nodes && G()[id] != [] && G()[id][|G()[id]| - 1] == a
      modifies this`store, this`debris
      ensures Valid()
      ensures e == Fine ==>
        && MovesOn(c, a, filed) && filed == a.(artifacts := filed.artifacts) && SlotsOk(c, G(), store, filed)
        && AllFiled(c.nodes[id].outputs, a, filed, |c.nodes[id].outputs|)
      ensures forall d: Debris :: !d.Copying? ==> (d in debris <==> d in old(debris))
    {
      hide Accepts, QueueOk, StoreOk, InOrder, Listed, WellFormed, SlotsOk, MovesOn, AllFiled;
      NewestFacts(c, journal, id, store);
      NothingFiledYet(c, id, a);
      var outputs := c.nodes[id].outputs;
      filed := a;
      for n := 0 to |outputs|
        invariant Valid() && filed == a.(artifacts := filed.artifacts)
        invariant MovesOn(c, a, filed) && SlotsOk(c, G(), store, filed) && AllFiled(outputs, a, filed, n)
        invariant forall d: Debris :: !d.Copying? ==> (d in debris <==> d in old(debris))
      {
        if VerifiedIn(filed, outputs[n]) {
          AlreadyFiled(outputs, a, filed, n);
        } else {
          if * { return AskAgain, filed; }
          if * { return Held, filed; }
          var record;
          FiledKeeps(outputs, a, filed, n, outputs[n]);
          e, record := FileOutput(id, a, filed, outputs[n]);
          if e != Fine { return; }
          FiledOneMore(c, id, a, filed, n, record);
          filed := filed.(artifacts := filed.artifacts[outputs[n] := record]);
        }
        if * { return Crashed, filed; }
      }
      e := Fine;
    }

    /** Copy one fetched output beside its place, verify it, and move it in with its manifest. */
    method FileOutput(id: string, a: Attempt, filed: Attempt, output: string)
      returns (e: Ended, record: ArtifactRecord)
      requires Valid() && id in c.nodes && G()[id] != [] && G()[id][|G()[id]| - 1] == a
      requires filed == a.(artifacts := filed.artifacts) && SlotsOk(c, G(), store, filed)
      requires !VerifiedIn(a, output) && !VerifiedIn(filed, output)
      modifies this`store, this`debris
      ensures Valid()
      ensures SlotsOk(c, G(), store, filed)
      ensures e == Fine ==> SlotsOk(c, G(), store, filed.(artifacts := filed.artifacts[output := record]))
      ensures forall d :: d != Copying(Slot(a.node, a.number, output)) ==> (d in debris <==> d in old(debris))
      ensures e == Fine ==> Copying(Slot(a.node, a.number, output)) !in debris
      ensures e == Crashed ==>
        Copying(Slot(a.node, a.number, output)) in debris || Slot(a.node, a.number, output) in store.artifacts
    {
      hide Accepts, QueueOk, StoreOk, InOrder, Listed, WellFormed, SlotsOk;
      NewestFacts(c, journal, id, store);
      var fetched: Tree := *;
      var clean: bool := *;
      var slot := Slot(a.node, a.number, output);
      var m := Manifest(a.node, a.number, output, fetched);
      record := ArtifactRecord(m, clean);
      OneSlot(c, journal, id, store, slot, filed, store.(artifacts := store.artifacts - {slot}));
      OneSlot(c, journal, id, store, slot, filed, store.(artifacts := store.artifacts[slot := fetched]));
      OneSlot(c, journal, id, store, slot, filed,
              store.(artifacts := store.artifacts[slot := fetched], manifests := store.manifests[slot := m]));
      debris := debris + {Copying(slot)};
      if * { return Crashed, record; }
      if clean {
        if * {
          store := store.(artifacts := store.artifacts - {slot});
          return Crashed, record;
        }
        if * {
          store, debris := store.(artifacts := store.artifacts[slot := fetched]), debris - {Copying(slot)};
          return Crashed, record;
        }
        store := store.(artifacts := store.artifacts[slot := fetched], manifests := store.manifests[slot := m]);
      }
      debris := debris - {Copying(slot)};
      FiledSlot(c, G(), store, filed, output, record);
      e := Fine;
    }

    /** The request leaves; it may arrive now, later or never, and is accepted once. */
    method Dispatch(k: Key)
      requires Valid() && Recorded(G(), k)
      modifies this`sent, this`jobs
      ensures Valid() && sent == old(sent) + {k}
    {
      hide Accepts, StoreOk, InOrder, Listed, WellFormed, Recorded, AttemptBacked;
      sent := sent + {k};
      Others();
    }
  }

  lemma PayloadThere(store: Store, a: Attempt)
    requires PayloadOk(store, a) && a.phase == Submitting
    ensures PayloadName(a.node, a.number) in store.payloads
    ensures store.payloads[PayloadName(a.node, a.number)] == Staged(a.inputs)
  {
  }

  /** An attempt the queue took moves on as the journal accepts. */
  lemma TakeOk(c: Campaign, group: seq<Attempt>, store: Store, jobs: Jobs, a: Attempt, a': Attempt)
    requires group != [] && group[|group| - 1] == a && a.phase == Submitting && a.key in jobs && PayloadOk(store, a)
    requires a.node in c.nodes && a.artifacts.Keys <= OutputNames(c.nodes[a.node])
    requires a' == a.(phase := Accepted, job := Some(jobs[a.key].ref))
    ensures MovesOn(c, a, a') && AttemptBacked(a', jobs) && PayloadOk(store, a') && Success(group).None?
  {
  }

  /** An attempt whose job went on moves on as the journal accepts. */
  lemma SeenOk(c: Campaign, group: seq<Attempt>, store: Store, jobs: Jobs, a: Attempt, a': Attempt)
    requires group != [] && group[|group| - 1] == a && a.phase in {Accepted, Running}
    requires a.job.Some? && AttemptBacked(a, jobs) && a' == a.(phase := jobs[a.key].phase)
    requires a.node in c.nodes && a.artifacts.Keys <= OutputNames(c.nodes[a.node])
    requires Progress(a'.phase) > Progress(a.phase)
    ensures MovesOn(c, a, a') && AttemptBacked(a', jobs) && PayloadOk(store, a') && Success(group).None?
  {
  }

  /** The queue has this attempt's job, and the journal knows it. */
  ghost predicate Taken(a: Attempt, jobs: Jobs) {
    a.phase == Accepted && a.key in jobs && a.job == Some(jobs[a.key].ref)
  }

  /** Only the node's newest attempt differs. */
  ghost predicate Moved(g: Groups, g': Groups, id: string) {
    && id in g && id in g' && g[id] != [] && |g'[id]| == |g[id]|
    && g' == g[id := g[id][..|g[id]| - 1] + [g'[id][|g[id]| - 1]]]
  }

  /** The first n outputs are recorded; a verified one stays as it was. */
  ghost predicate AllFiled(outputs: seq<string>, was: Attempt, now: Attempt, n: nat) {
    && n <= |outputs| && now == was.(artifacts := now.artifacts)
    && (forall i :: 0 <= i < n ==> outputs[i] in now.artifacts)
    && (forall o :: o in was.artifacts && was.artifacts[o].verified ==>
          o in now.artifacts && now.artifacts[o] == was.artifacts[o])
  }

  lemma NothingFiledYet(c: Campaign, id: string, a: Attempt)
    requires id in c.nodes && a.node == id && a.artifacts.Keys <= OutputNames(c.nodes[id])
    requires a.phase in {Accepted, Running, Succeeded} ==> a.job.Some?
    ensures MovesOn(c, a, a) && AllFiled(c.nodes[id].outputs, a, a, 0)
  {
  }

  lemma GroupIsListed(c: Campaign, js: Journal, id: string)
    requires id in c.nodes
    ensures ListedGroups(c, js).Keys == c.nodes.Keys && ListedGroups(c, js)[id] == Listed(js, id)
  {
    hide Listed;
  }

  lemma SuccessHas(group: seq<Attempt>)
    requires Success(group).Some?
    ensures group != [] && group[|group| - 1].phase == Succeeded
  {
  }

  /** The payload of an attempt that is not to be sent again may be gone. */
  lemma SentNoMore(store: Store, a: Attempt)
    requires a.phase != Submitting
    ensures PayloadOk(store, a)
  {
  }

  lemma MovedHere(g: Groups, g': Groups, id: string, a: Attempt)
    requires id in g && g[id] != [] && g' == g[id := g[id][..|g[id]| - 1] + [a]]
    ensures Moved(g, g', id) && |g'[id]| == |g[id]| && g'[id][|g'[id]| - 1] == a
  {
  }

  lemma FiledShape(c: Campaign, a: Attempt, filed: Attempt)
    requires filed == a.(artifacts := filed.artifacts) && MovesOn(c, a, filed)
    ensures filed.node == a.node && filed.number == a.number && filed.phase == a.phase && filed.job == a.job
    ensures filed.key == a.key && filed.inputs == a.inputs
  {
  }

  lemma AlreadyFiled(outputs: seq<string>, a: Attempt, filed: Attempt, n: nat)
    requires AllFiled(outputs, a, filed, n) && n < |outputs| && outputs[n] in filed.artifacts
    ensures AllFiled(outputs, a, filed, n + 1)
  {
  }

  lemma FiledOneMore(c: Campaign, id: string, a: Attempt, filed: Attempt, n: nat, record: ArtifactRecord)
    requires id in c.nodes && a.node == id && n < |c.nodes[id].outputs|
    requires MovesOn(c, a, filed) && AllFiled(c.nodes[id].outputs, a, filed, n)
    requires !VerifiedIn(filed, c.nodes[id].outputs[n])
    ensures var filed' := filed.(artifacts := filed.artifacts[c.nodes[id].outputs[n] := record]);
            MovesOn(c, a, filed') && AllFiled(c.nodes[id].outputs, a, filed', n + 1)
  {
    assert c.nodes[id].outputs[n] in OutputNames(c.nodes[id]);
  }

  lemma FiledKeeps(outputs: seq<string>, a: Attempt, filed: Attempt, n: nat, output: string)
    requires AllFiled(outputs, a, filed, n) && !VerifiedIn(filed, output)
    ensures !VerifiedIn(a, output)
  {
  }

  lemma NewestFacts(c: Campaign, js: Journal, id: string, store: Store)
    requires id in c.nodes && Accepts(c, ListedGroups(c, js)) && Listed(js, id) != []
    requires StoreOk(c, ListedGroups(c, js), store)
    ensures var g := ListedGroups(c, js); var a := g[id][|g[id]| - 1];
            && a.node == id && a.number == |g[id]| && a.key == Key(c.digest, id, |g[id]|) && Recorded(g, a.key)
            && a.artifacts.Keys <= OutputNames(c.nodes[id])
            && (a.phase in {Accepted, Running, Succeeded} ==> a.job.Some?)
            && PayloadOk(store, a) && SlotsOk(c, g, store, a)
  {
    hide StartedOk, PayloadOk, SlotsOk, Listed;
    var g := ListedGroups(c, js);
    var n := |g[id]| - 1;
    GroupsNamed(c, js);
    assert NodeOk(c, id, g[id]);
    assert AttemptOk(c, id, g[id], n);
  }

  lemma SameArtifacts(c: Campaign, g: Groups, store: Store, a: Attempt, a': Attempt)
    requires c.nodes.Keys <= g.Keys && SlotsOk(c, g, store, a)
    requires a'.node == a.node && a'.number == a.number && a'.artifacts == a.artifacts
    ensures SlotsOk(c, g, store, a')
  {
    forall output ensures SlotOk(c, g, store, a', output) { assert SlotOk(c, g, store, a, output); }
  }

  lemma Backed(c: Campaign, g: Groups, jobs: Jobs, sent: set<Key>, id: string, a: Attempt)
    requires QueueOk(g, jobs, sent) && id in g && g[id] != []
    requires var last := g[id][|g[id]| - 1]; a.job == last.job && a.phase == last.phase && a.key == last.key
    ensures AttemptBacked(a, jobs)
  {
    assert AttemptBacked(g[id][|g[id]| - 1], jobs);
  }

  /** Only this slot differs, and nothing recorded or about to be recorded relies on it. */
  lemma OneSlot(c: Campaign, js: Journal, id: string, store: Store, slot: Slot, filed: Attempt, store': Store)
    requires id in c.nodes && Accepts(c, ListedGroups(c, js)) && StoreOk(c, ListedGroups(c, js), store)
    requires Listed(js, id) != [] && slot.node == id && slot.attempt == |Listed(js, id)|
    requires !VerifiedIn(Listed(js, id)[|Listed(js, id)| - 1], slot.output)
    requires SlotsOk(c, ListedGroups(c, js), store, filed) && !VerifiedIn(filed, slot.output)
    requires store'.payloads == store.payloads
    requires forall s :: s != slot && s in store.artifacts ==>
      s in store'.artifacts && store'.artifacts[s] == store.artifacts[s]
    requires forall s :: s != slot && s in store.manifests ==>
      s in store'.manifests && store'.manifests[s] == store.manifests[s]
    ensures StoreOk(c, ListedGroups(c, js), store') && SlotsOk(c, ListedGroups(c, js), store', filed)
  {
    hide Accepts, Needed, Listed, PayloadOk;
    var g: Groups := ListedGroups(c, js);
    GroupsNamed(c, js);
    forall x: string, i: nat | x in g && i < |g[x]|
      ensures PayloadOk(store', g[x][i]) && SlotsOk(c, g, store', g[x][i])
    {
      assert PayloadOk(store, g[x][i]) && SlotsOk(c, g, store, g[x][i]);
      GroupNumbers(c, g, x, i);
      SamePayloads(store, store', g[x][i]);
      forall output ensures SlotOk(c, g, store', g[x][i], output) {
        assert SlotOk(c, g, store, g[x][i], output);
      }
    }
    forall output ensures SlotOk(c, g, store', filed, output) { assert SlotOk(c, g, store, filed, output); }
  }

  lemma SamePayloads(store: Store, store': Store, a: Attempt)
    requires PayloadOk(store, a) && store'.payloads == store.payloads
    ensures PayloadOk(store', a)
  {
  }

  lemma FiledSlot(c: Campaign, g: Groups, store: Store, filed: Attempt, output: string, record: ArtifactRecord)
    requires c.nodes.Keys <= g.Keys && SlotsOk(c, g, store, filed)
    requires var slot := Slot(filed.node, filed.number, output);
             record.verified ==>
               && slot in store.manifests && store.manifests[slot] == record.manifest
               && slot in store.artifacts && store.artifacts[slot] == record.manifest.content
    ensures SlotsOk(c, g, store, filed.(artifacts := filed.artifacts[output := record]))
  {
    hide Needed;
    var filed' := filed.(artifacts := filed.artifacts[output := record]);
    forall o ensures SlotOk(c, g, store, filed', o) { assert SlotOk(c, g, store, filed, o); }
  }

  /** The node went from no attempt to one that is not yet known to be accepted. */
  ghost predicate Begun(g: Groups, g': Groups, id: string) {
    id in g && g[id] == [] && exists a: Attempt :: a.phase == Submitting && g' == g[id := [a]]
  }

  /** What the node's i-th input would be staged from. */
  ghost function Offered(c: Campaign, g: Groups, id: string, i: nat): Option<Binding>
    requires id in c.nodes && i < |c.nodes[id].inputs|
  {
    var item := c.nodes[id].inputs[i];
    if item.producer in g then Offer(g[item.producer], item.output) else None
  }

  ghost predicate AllBound(c: Campaign, g: Groups, id: string, bindings: map<string, Binding>)
    requires id in c.nodes
  {
    forall i :: 0 <= i < |c.nodes[id].inputs| ==> Bound(g, c.nodes[id].inputs[i], bindings)
  }

  /** A payload that no recorded attempt has may come and go. */
  lemma OtherPayload(c: Campaign, g: Groups, store: Store, store': Store, name: PayloadName)
    requires c.nodes.Keys <= g.Keys && StoreOk(c, g, store) && Unrecorded(g, name)
    requires store'.artifacts == store.artifacts && store'.manifests == store.manifests
    requires forall n :: n != name && n in store.payloads ==>
      n in store'.payloads && store'.payloads[n] == store.payloads[n]
    ensures StoreOk(c, g, store')
  {
    forall id, i | id in g && 0 <= i < |g[id]|
      ensures PayloadOk(store', g[id][i]) && SlotsOk(c, g, store', g[id][i])
    {
      assert PayloadOk(store, g[id][i]) && SlotsOk(c, g, store, g[id][i]);
      forall output ensures SlotOk(c, g, store', g[id][i], output) {
        assert SlotOk(c, g, store, g[id][i], output);
      }
    }
  }

  lemma FreshName(c: Campaign, js: Journal, id: string, number: nat)
    requires Accepts(c, ListedGroups(c, js)) && id in c.nodes && number > |Listed(js, id)|
    ensures Unrecorded(ListedGroups(c, js), PayloadName(id, number))
  {
    hide Accepts, Listed;
    GroupsNamed(c, js);
    var g: Groups := ListedGroups(c, js);
    forall x: string, i: nat | x in g && 0 <= i < |g[x]|
      ensures PayloadName(g[x][i].node, g[x][i].number) != PayloadName(id, number)
    {
      GroupNumbers(c, g, x, i);
    }
  }

  /** No recorded attempt has this payload. */
  ghost predicate Unrecorded(g: Groups, name: PayloadName) {
    forall id, i :: id in g && 0 <= i < |g[id]| ==> PayloadName(g[id][i].node, g[id][i].number) != name
  }

  lemma ReplacedOk(c: Campaign, js: Journal, k: nat, id: string, a: Attempt, jobs: Jobs, sent: set<Key>, store: Store)
    requires WellFormed(c) && InOrder(c, js) && Known(c, js) && Accepts(c, ListedGroups(c, js))
    requires QueueOk(ListedGroups(c, js), jobs, sent) && StoreOk(c, ListedGroups(c, js), store)
    requires id in c.nodes && Listed(js, id) != [] && a.node == id
    requires MovesOn(c, Listed(js, id)[|Listed(js, id)| - 1], a) && AttemptBacked(a, jobs)
    requires PayloadOk(store, a) && SlotsOk(c, ListedGroups(c, js), store, a)
    requires Success(Listed(js, id)).Some? ==> a.phase == Succeeded
    requires k < |js| && js[k].node == id && forall i :: k < i < |js| ==> js[i].node != id
    ensures var js' := js[k := a]; var g := ListedGroups(c, js);
            && InOrder(c, js') && JournalOk(c, c.digest, js') && Known(c, js') && Accepts(c, ListedGroups(c, js'))
            && ListedGroups(c, js') == g[id := g[id][..|g[id]| - 1] + [a]]
            && QueueOk(ListedGroups(c, js'), jobs, sent) && StoreOk(c, ListedGroups(c, js'), store)
  {
    hide Accepts, WellFormed, QueueOk, StoreOk, InOrder, Listed, AttemptBacked, PayloadOk, SlotsOk, Success;
    ListedLast(js, k);
    GroupsAreListed(c, js);
    ReplaceAccepted(c, js, k, a);
    ReplaceGroups(c, js, k, a);
    GroupsAreListed(c, js[k := a]);
    ReplaceStored(c, ListedGroups(c, js), id, a, jobs, sent, store);
  }

  method LastOf(js: Journal, id: string) returns (k: nat)
    requires Listed(js, id) != []
    ensures k < |js| && js[k].node == id && forall i :: k < i < |js| ==> js[i].node != id
  {
    var n := |js|;
    assert js[..n] == js;
    while n > 0 && js[n - 1].node != id
      invariant 0 <= n <= |js| && (forall i :: n <= i < |js| ==> js[i].node != id)
      invariant Listed(js[..n], id) != []
    {
      assert js[..n][..n - 1] == js[..n - 1];
      n := n - 1;
    }
    k := n - 1;
  }

  lemma ReplaceStored(c: Campaign, g: Groups, id: string, a: Attempt, jobs: Jobs, sent: set<Key>, store: Store)
    requires c.nodes.Keys <= g.Keys && id in c.nodes && QueueOk(g, jobs, sent) && StoreOk(c, g, store)
    requires g[id] != [] && a.key == g[id][|g[id]| - 1].key && AttemptBacked(a, jobs)
    requires PayloadOk(store, a) && SlotsOk(c, g, store, a) && (Success(g[id]).Some? ==> a.phase == Succeeded)
    ensures var g' := g[id := g[id][..|g[id]| - 1] + [a]]; QueueOk(g', jobs, sent) && StoreOk(c, g', store)
  {
    hide QueueOk, StoreOk, PayloadOk, Needed, SlotsOk, AttemptBacked;
    var after := g[id][..|g[id]| - 1] + [a];
    WriteKeepsQueue(g, id, after, jobs, sent);
    WriteKeepsStore(c, g, id, after, store);
  }

  lemma EmptyHolds(c: Campaign)
    ensures InOrder(c, []) && Known(c, []) && Accepts(c, ListedGroups(c, []))
    ensures QueueOk(ListedGroups(c, []), map[], {}) && StoreOk(c, ListedGroups(c, []), Store(map[], map[], map[]))
  {
    forall id | id in c.nodes ensures ListedGroups(c, [])[id] == [] { }
  }

  lemma AppendStored(c: Campaign, g: Groups, id: string, a: Attempt, jobs: Jobs, sent: set<Key>, store: Store)
    requires c.nodes.Keys <= g.Keys && id in c.nodes && QueueOk(g, jobs, sent) && StoreOk(c, g, store)
    requires Appendable(c, g, id, a) && PayloadOk(store, a) && a.job.None?
    ensures QueueOk(g[id := g[id] + [a]], jobs, sent) && StoreOk(c, g[id := g[id] + [a]], store)
  {
    hide QueueOk, StoreOk, PayloadOk, Needed;
    WriteKeepsQueue(g, id, g[id] + [a], jobs, sent);
    WriteKeepsStore(c, g, id, g[id] + [a], store);
  }
}
