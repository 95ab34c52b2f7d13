/** What the run directory may give up (src/vq/campaign_controller.py:836-888). */
module CampaignCleanup {
  import opened Common
  import opened CampaignGraph
  import opened CampaignStatus
  import opened CampaignJournal
  import opened CampaignController

  // --------------------------------------------------------------------
  // Names that look like what an interrupted stage or publish leaves

  predicate EndsWith(s: string, suffix: string) {
    |suffix| <= |s| && s[|s| - |suffix|..] == suffix
  }

  predicate LeftoverName(name: string) {
    name != "" && name[0] == '.' && (EndsWith(name, ".staging") || EndsWith(name, ".copy"))
  }

  predicate LooksLeftOver(path: seq<string>) {
    exists i :: 0 <= i < |path| && LeftoverName(path[i])
  }

  predicate Tidy(t: Tree) {
    forall path :: path in t ==> !LooksLeftOver(path)
  }

  predicate TidyPayload(p: Payload) {
    forall n :: n in p ==> Tidy(p[n])
  }

  function ScrubTree(t: Tree): Tree {
    map path | path in t && !LooksLeftOver(path) :: t[path]
  }

  function ScrubPayload(p: Payload): Payload {
    map n | n in p :: ScrubTree(p[n])
  }

  lemma ScrubTidy(t: Tree)
    ensures ScrubTree(t) == t <==> Tidy(t)
  {
    hide LooksLeftOver;
    assert Tidy(t) ==> ScrubTree(t) == t;
    if ScrubTree(t) == t {
      forall path | path in t ensures !LooksLeftOver(path) { assert path in ScrubTree(t); }
    }
  }

  lemma ScrubTidyPayload(p: Payload)
    ensures ScrubPayload(p) == p <==> TidyPayload(p)
  {
    hide Tidy, ScrubTree;
    forall n | n in p ensures ScrubTree(p[n]) == p[n] <==> Tidy(p[n]) { ScrubTidy(p[n]); }
    if ScrubPayload(p) == p {
      forall n | n in p ensures Tidy(p[n]) { assert ScrubPayload(p)[n] == p[n]; }
    }
  }

  // --------------------------------------------------------------------
  // The plan

  datatype Item =
    | DropPayload(name: PayloadName)
    | TidyUpPayload(name: PayloadName)
    | TidyUpArtifact(slot: Slot)
    | DropArtifact(slot: Slot)
    | DropDebris(debris: Debris)

  /** What the leftover is called beside the payload or artifact it was to become. */
  function DebrisName(d: Debris): string {
    match d
    case Building(payload) => "." + Decimal(payload.attempt) + ".staging"
    case Copying(slot) => "." + slot.output + ".copy"
    case Incoming(_, attempt) => Decimal(attempt)
  }

  /** Fetched copies are listed by where they are, the others by what they are called. */
  predicate DebrisListed(d: Debris) {
    d.Incoming? || LeftoverName(DebrisName(d))
  }

  /** Whatever an interrupted stage or publish left is recognised. */
  lemma EveryDebrisListed(d: Debris)
    ensures DebrisListed(d)
  {
    match d {
      case Building(payload) => EndsHere("." + Decimal(payload.attempt), ".staging");
      case Copying(slot) => EndsHere("." + slot.output, ".copy");
      case Incoming(_, _) =>
    }
  }

  lemma EndsHere(stem: string, suffix: string)
    ensures EndsWith(stem + suffix, suffix)
  {
    assert (stem + suffix)[|stem|..] == suffix;
  }

  /** The attempt was accepted, so its payload is never sent again. */
  predicate PayloadSpent(js: Journal, name: PayloadName) {
    exists i :: 0 <= i < |js| && js[i].phase != Submitting && PayloadName(js[i].node, js[i].number) == name
  }

  /** Every consumer of any of the node's outputs has succeeded. */
  predicate Unretained(c: Campaign, g: Groups, id: string)
    requires c.nodes.Keys <= g.Keys
  {
    forall m, i :: m in c.nodes && 0 <= i < |c.nodes[m].inputs| && c.nodes[m].inputs[i].producer == id ==>
      Success(g[m]).Some?
  }

  /** A published output that some node consumed and no node needs any more. */
  predicate Released(c: Campaign, g: Groups, slot: Slot)
    requires c.nodes.Keys <= g.Keys
  {
    && slot.node in c.nodes && Success(g[slot.node]).Some? && Success(g[slot.node]).value.number == slot.attempt
    && slot.output in OutputNames(c.nodes[slot.node])
    && (exists m :: m in c.nodes && Consumes(c, m, slot.node, slot.output))
    && Unretained(c, g, slot.node)
  }

  ghost predicate Listable(c: Campaign, js: Journal, g: Groups, store: Store, debris: set<Debris>, intermediate: bool,
                     item: Item)
    requires c.nodes.Keys <= g.Keys
  {
    match item
    case DropPayload(name) => name in store.payloads && PayloadSpent(js, name)
    case TidyUpPayload(name) => name in store.payloads && !TidyPayload(store.payloads[name])
    case TidyUpArtifact(slot) => slot in store.artifacts && !Tidy(store.artifacts[slot])
    case DropArtifact(slot) => intermediate && slot in store.artifacts && Released(c, g, slot)
    case DropDebris(d) => d in debris && DebrisListed(d)
  }

  /** The items about payloads, each listed when its reason holds. */
  method PayloadItems(js: Journal, payloads: map<PayloadName, Payload>) returns (plan: set<Item>)
    ensures forall n :: DropPayload(n) in plan <==> n in payloads && PayloadSpent(js, n)
    ensures forall n :: TidyUpPayload(n) in plan <==> n in payloads && !TidyPayload(payloads[n])
    ensures forall item :: item in plan ==> item.DropPayload? || item.TidyUpPayload?
  {
    hide PayloadSpent, TidyPayload;
    plan := {};
    var names := payloads.Keys;
    while names != {}
      invariant names <= payloads.Keys
      invariant forall n :: DropPayload(n) in plan <==> n in payloads && n !in names && PayloadSpent(js, n)
      invariant forall n :: TidyUpPayload(n) in plan <==> n in payloads && n !in names && !TidyPayload(payloads[n])
      invariant forall item :: item in plan ==> item.DropPayload? || item.TidyUpPayload?
      decreases |names|
    {
      var name :| name in names;
      if PayloadSpent(js, name) { plan := plan + {DropPayload(name)}; }
      if !TidyPayload(payloads[name]) { plan := plan + {TidyUpPayload(name)}; }
      names := names - {name};
    }
  }

  /** The items about artifacts. */
  method ArtifactItems(c: Campaign, g: Groups, artifacts: map<Slot, Tree>, intermediate: bool) returns (plan: set<Item>)
    requires c.nodes.Keys <= g.Keys
    ensures forall s :: TidyUpArtifact(s) in plan <==> s in artifacts && !Tidy(artifacts[s])
    ensures forall s :: DropArtifact(s) in plan <==> intermediate && s in artifacts && Released(c, g, s)
    ensures forall item :: item in plan ==> item.TidyUpArtifact? || item.DropArtifact?
  {
    hide Released, Tidy;
    plan := {};
    var slots := artifacts.Keys;
    while slots != {}
      invariant slots <= artifacts.Keys
      invariant forall s :: TidyUpArtifact(s) in plan <==> s in artifacts && s !in slots && !Tidy(artifacts[s])
      invariant forall s :: DropArtifact(s) in plan <==>
        intermediate && s in artifacts && s !in slots && Released(c, g, s)
      invariant forall item :: item in plan ==> item.TidyUpArtifact? || item.DropArtifact?
      decreases |slots|
    {
      var slot :| slot in slots;
      if !Tidy(artifacts[slot]) { plan := plan + {TidyUpArtifact(slot)}; }
      if intermediate && Released(c, g, slot) { plan := plan + {DropArtifact(slot)}; }
      slots := slots - {slot};
    }
  }

  /** The plan lists exactly what it has a reason to list. */
  method CleanupPlan(k: Controller, g: Groups, intermediate: bool) returns (plan: set<Item>)
    requires k.Valid() && g == k.G() && k.c.nodes.Keys <= g.Keys
    ensures forall item :: item in plan <==> Listable(k.c, k.journal, g, k.store, k.debris, intermediate, item)
  {
    hide Released, PayloadSpent, Tidy, TidyPayload, Accepts, QueueOk, StoreOk, InOrder, WellFormed, Listed;
    var payloads := PayloadItems(k.journal, k.store.payloads);
    var artifacts := ArtifactItems(k.c, g, k.store.artifacts, intermediate);
    var leftovers := set d | d in k.debris && DebrisListed(d) :: DropDebris(d);
    plan := payloads + artifacts + leftovers;
    forall item ensures item in plan <==> Listable(k.c, k.journal, g, k.store, k.debris, intermediate, item) {
      match item {
        case DropPayload(n) =>
        case TidyUpPayload(n) =>
        case TidyUpArtifact(s) =>
        case DropArtifact(s) =>
        case DropDebris(d) =>
      }
    }
  }

  function Remove(store: Store, item: Item): Store {
    match item
    case DropPayload(name) => store.(payloads := store.payloads - {name})
    case TidyUpPayload(name) =>
      if name in store.payloads then
        store.(payloads := store.payloads[name := ScrubPayload(store.payloads[name])]) else store
    case TidyUpArtifact(slot) =>
      if slot in store.artifacts then
        store.(artifacts := store.artifacts[slot := ScrubTree(store.artifacts[slot])]) else store
    case DropArtifact(slot) => store.(artifacts := store.artifacts - {slot})
    case DropDebris(_) => store
  }

  /** The run directory once every listed path is gone. */
  ghost function Cleaned(c: Campaign, js: Journal, g: Groups, store: Store, intermediate: bool): Store
    requires c.nodes.Keys <= g.Keys
  {
    Store(map n | n in store.payloads && !PayloadSpent(js, n) :: ScrubPayload(store.payloads[n]),
          map s | s in store.artifacts && !(intermediate && Released(c, g, s)) :: ScrubTree(store.artifacts[s]),
          store.manifests)
  }

  /** Part of the plan is done: dropped what it names, scrubbed what it names. */
  ghost predicate PartlyCleaned(store: Store, done: set<Item>, store': Store) {
    && store'.manifests == store.manifests
    && PayloadsPartly(store.payloads, done, store'.payloads) && ArtifactsPartly(store.artifacts, done, store'.artifacts)
  }

  ghost predicate PayloadsPartly(payloads: map<PayloadName, Payload>, done: set<Item>,
                                 after: map<PayloadName, Payload>) {
    && (forall n :: n in after <==> n in payloads && DropPayload(n) !in done)
    && (forall n :: n in after ==>
          after[n] == if TidyUpPayload(n) in done then ScrubPayload(payloads[n]) else payloads[n])
  }

  ghost predicate ArtifactsPartly(artifacts: map<Slot, Tree>, done: set<Item>, after: map<Slot, Tree>) {
    && (forall s :: s in after <==> s in artifacts && DropArtifact(s) !in done)
    && (forall s :: s in after ==>
          after[s] == if TidyUpArtifact(s) in done then ScrubTree(artifacts[s]) else artifacts[s])
  }

  lemma RemovePayload(payloads: map<PayloadName, Payload>, done: set<Item>, store: Store, item: Item)
    requires PayloadsPartly(payloads, done, store.payloads) && item !in done
    ensures PayloadsPartly(payloads, done + {item}, Remove(store, item).payloads)
  {
    hide ScrubPayload, ScrubTree;
  }

  lemma RemoveArtifact(artifacts: map<Slot, Tree>, done: set<Item>, store: Store, item: Item)
    requires ArtifactsPartly(artifacts, done, store.artifacts) && item !in done
    ensures ArtifactsPartly(artifacts, done + {item}, Remove(store, item).artifacts)
  {
    hide ScrubPayload, ScrubTree;
  }

  lemma RemoveOne(store: Store, done: set<Item>, store': Store, item: Item)
    requires PartlyCleaned(store, done, store') && item !in done
    ensures PartlyCleaned(store, done + {item}, Remove(store', item))
  {
    hide PayloadsPartly, ArtifactsPartly;
    RemovePayload(store.payloads, done, store', item);
    RemoveArtifact(store.artifacts, done, store', item);
  }

  /** Nothing differs but what the plan lists. */
  predicate OnlyListed(plan: set<Item>, store: Store, store': Store) {
    && store'.manifests == store.manifests
    && (forall n :: n in store.payloads.Keys + store'.payloads.Keys
                    && DropPayload(n) !in plan && TidyUpPayload(n) !in plan ==>
          n in store.payloads && n in store'.payloads && store'.payloads[n] == store.payloads[n])
    && (forall s :: s in store.artifacts.Keys + store'.artifacts.Keys
                    && DropArtifact(s) !in plan && TidyUpArtifact(s) !in plan ==>
          s in store.artifacts && s in store'.artifacts && store'.artifacts[s] == store.artifacts[s])
  }

  lemma PartlyOnlyListed(plan: set<Item>, done: set<Item>, store: Store, store': Store)
    requires PartlyCleaned(store, done, store') && done <= plan
    ensures OnlyListed(plan, store, store')
  {
    hide ScrubPayload, ScrubTree;
  }

  lemma ThenOneMore(plan: set<Item>, item: Item, store: Store, mid: Store, after: Store)
    requires OnlyListed(plan, store, mid) && item in plan && OnlyListed({item}, mid, after)
    ensures OnlyListed(plan, store, after)
  {
  }

  /** Remove everything the plan lists, in any order; a process that dies on the way leaves the
      item it was at in any state. Done in full, the controller's state stands if and only if
      nothing needed looks like a leftover; and if nothing does, it stands wherever this stops. */
  method ApplyCleanup(k: Controller, g: Groups, intermediate: bool, plan: set<Item>) returns (crashed: bool)
    requires k.Valid() && g == k.G() && k.c.nodes.Keys <= g.Keys
    requires forall item :: item in plan <==> Listable(k.c, k.journal, g, k.store, k.debris, intermediate, item)
    modifies k`store, k`debris
    ensures OnlyListed(plan, old(k.store), k.store) && k.debris <= old(k.debris)
    ensures !crashed ==> k.store == Cleaned(k.c, k.journal, g, old(k.store), intermediate) && k.debris == {}
    ensures NeededTidy(k.c, g, old(k.store)) ==> k.Valid()
    ensures !crashed ==> (k.Valid() <==> NeededTidy(k.c, g, old(k.store)))
    ensures crashed ==> plan != {}
  {
    hide Listable, Remove, PartlyCleaned, Accepts, QueueOk, StoreOk, InOrder, WellFormed, Listed, Cleaned, OnlyListed;
    hide NeededTidy;
    crashed := false;
    var rest := plan;
    NothingYet(k.store);
    while rest != {}
      invariant rest <= plan && PartlyCleaned(old(k.store), plan - rest, k.store) && k.debris <= old(k.debris)
      invariant forall d :: d in k.debris ==> DropDebris(d) !in plan - rest
      decreases |rest|
    {
      var item :| item in rest;
      PartlyOnlyListed(plan, plan - rest, old(k.store), k.store);
      var torn: Store := *;
      if OnlyListed({item}, k.store, torn) {
        ThenOneMore(plan, item, old(k.store), k.store, torn);
        CutShort(k.c, k.journal, old(k.store), old(k.debris), intermediate, plan, torn);
        k.store := torn;
        return true;
      }
      RemoveOne(old(k.store), plan - rest, k.store, item);
      assert plan - (rest - {item}) == plan - rest + {item};
      k.store := Remove(k.store, item);
      if item.DropDebris? { k.debris := k.debris - {item.debris}; }
      rest := rest - {item};
    }
    assert plan - rest == plan;
    PartlyOnlyListed(plan, plan, old(k.store), k.store);
    NoDebrisLeft(k.c, k.journal, g, old(k.store), old(k.debris), intermediate, plan, k.debris);
    AllCleaned(k.c, k.journal, g, old(k.store), old(k.debris), intermediate, plan, k.store);
    CleanupSafeIffTidy(k.c, k.journal, old(k.store), intermediate);
  }

  lemma NoDebrisLeft(c: Campaign, js: Journal, g: Groups, store: Store, debris: set<Debris>, intermediate: bool,
                     plan: set<Item>, left: set<Debris>)
    requires c.nodes.Keys <= g.Keys && left <= debris && forall d :: d in left ==> DropDebris(d) !in plan
    requires forall item :: item in plan <==> Listable(c, js, g, store, debris, intermediate, item)
    ensures left == {}
  {
    hide DebrisListed;
    forall d | d in debris ensures Listable(c, js, g, store, debris, intermediate, DropDebris(d)) {
      EveryDebrisListed(d);
    }
  }

  lemma NothingYet(store: Store)
    ensures forall plan: set<Item> :: PartlyCleaned(store, plan - plan, store)
  {
  }

  lemma AllCleaned(c: Campaign, js: Journal, g: Groups, store: Store, debris: set<Debris>, intermediate: bool,
                   plan: set<Item>, store': Store)
    requires c.nodes.Keys <= g.Keys && PartlyCleaned(store, plan, store')
    requires forall item :: item in plan <==> Listable(c, js, g, store, debris, intermediate, item)
    ensures store' == Cleaned(c, js, g, store, intermediate)
  {
    hide ScrubPayload, ScrubTree, Tidy, TidyPayload, Released, PayloadSpent, Cleaned, PartlyCleaned;
    var clean: Store := Cleaned(c, js, g, store, intermediate);
    PayloadsCleaned(c, js, g, store, debris, intermediate, plan, store');
    ArtifactsCleaned(c, js, g, store, debris, intermediate, plan, store');
  }

  lemma PayloadsCleaned(c: Campaign, js: Journal, g: Groups, store: Store, debris: set<Debris>, intermediate: bool,
                        plan: set<Item>, store': Store)
    requires c.nodes.Keys <= g.Keys && PartlyCleaned(store, plan, store')
    requires forall item :: item in plan <==> Listable(c, js, g, store, debris, intermediate, item)
    ensures store'.payloads == Cleaned(c, js, g, store, intermediate).payloads
  {
    hide ScrubPayload, ScrubTree, Tidy, TidyPayload, Released, PayloadSpent;
    var clean: Store := Cleaned(c, js, g, store, intermediate);
    forall n ensures n in store'.payloads <==> n in clean.payloads {
      assert DropPayload(n) in plan <==> Listable(c, js, g, store, debris, intermediate, DropPayload(n));
    }
    forall n | n in store'.payloads ensures store'.payloads[n] == clean.payloads[n] {
      assert TidyUpPayload(n) in plan <==> Listable(c, js, g, store, debris, intermediate, TidyUpPayload(n));
      ScrubTidyPayload(store.payloads[n]);
    }
  }

  lemma ArtifactsCleaned(c: Campaign, js: Journal, g: Groups, store: Store, debris: set<Debris>, intermediate: bool,
                         plan: set<Item>, store': Store)
    requires c.nodes.Keys <= g.Keys && PartlyCleaned(store, plan, store')
    requires forall item :: item in plan <==> Listable(c, js, g, store, debris, intermediate, item)
    ensures store'.artifacts == Cleaned(c, js, g, store, intermediate).artifacts
    ensures store'.manifests == Cleaned(c, js, g, store, intermediate).manifests
  {
    hide ScrubPayload, ScrubTree, Tidy, TidyPayload, Released, PayloadSpent;
    var clean: Store := Cleaned(c, js, g, store, intermediate);
    forall s ensures s in store'.artifacts <==> s in clean.artifacts {
      assert DropArtifact(s) in plan <==> Listable(c, js, g, store, debris, intermediate, DropArtifact(s));
    }
    forall s | s in store'.artifacts ensures store'.artifacts[s] == clean.artifacts[s] {
      assert TidyUpArtifact(s) in plan <==> Listable(c, js, g, store, debris, intermediate, TidyUpArtifact(s));
      ScrubTidy(store.artifacts[s]);
    }
  }

  // --------------------------------------------------------------------
  // When cleaning is safe

  /** What an attempt may still need holds no name the cleanup would take for a leftover. */
  predicate AttemptTidy(c: Campaign, g: Groups, store: Store, a: Attempt)
    requires c.nodes.Keys <= g.Keys
  {
    && (a.phase == Submitting && PayloadName(a.node, a.number) in store.payloads ==>
          TidyPayload(store.payloads[PayloadName(a.node, a.number)]))
    && (forall output :: output in a.artifacts ==> SlotTidy(c, g, store, a, output))
  }

  predicate SlotTidy(c: Campaign, g: Groups, store: Store, a: Attempt, output: string)
    requires c.nodes.Keys <= g.Keys
  {
    var slot := Slot(a.node, a.number, output);
    VerifiedIn(a, output) && Needed(c, g, a.node, output) && slot in store.artifacts ==> Tidy(store.artifacts[slot])
  }

  predicate NeededTidy(c: Campaign, g: Groups, store: Store)
    requires c.nodes.Keys <= g.Keys
  {
    forall id, i :: id in g && 0 <= i < |g[id]| ==> AttemptTidy(c, g, store, g[id][i])
  }

  lemma {:induction false} ListedContains(js: Journal, i: nat) returns (p: nat)
    requires i < |js|
    ensures p < |Listed(js, js[i].node)| && Listed(js, js[i].node)[p] == js[i]
    decreases |js|
  {
    if i == |js| - 1 {
      p := |Listed(js, js[i].node)| - 1;
    } else {
      assert js[..|js| - 1][i] == js[i];
      p := ListedContains(js[..|js| - 1], i);
    }
  }

  /** A payload still to be sent is not spent. */
  lemma SubmittingNotSpent(c: Campaign, js: Journal, id: string, i: nat)
    requires Accepts(c, ListedGroups(c, js)) && Known(c, js) && id in c.nodes && i < |Listed(js, id)|
    requires Listed(js, id)[i].phase == Submitting
    ensures !PayloadSpent(js, PayloadName(Listed(js, id)[i].node, Listed(js, id)[i].number))
  {
    hide Accepts, Listed;
    var g: Groups := ListedGroups(c, js);
    var a := g[id][i];
    GroupsNamed(c, js);
    GroupNumbers(c, g, id, i);
    forall n | 0 <= n < |js| && PayloadName(js[n].node, js[n].number) == PayloadName(a.node, a.number)
      ensures js[n].phase == Submitting
    {
      var p := ListedContains(js, n);
      GroupNumbers(c, g, id, p);
    }
  }

  lemma NeededNotReleased(c: Campaign, g: Groups, slot: Slot)
    requires c.nodes.Keys <= g.Keys && Needed(c, g, slot.node, slot.output)
    ensures !Released(c, g, slot)
  {
  }

  lemma SlotCleaned(c: Campaign, js: Journal, g: Groups, store: Store, intermediate: bool, a: Attempt, output: string)
    requires c.nodes.Keys <= g.Keys && SlotOk(c, g, store, a, output)
    ensures SlotOk(c, g, Cleaned(c, js, g, store, intermediate), a, output) <==> SlotTidy(c, g, store, a, output)
  {
    hide Needed, Released, ScrubTree, Tidy, PayloadSpent, ScrubPayload;
    if VerifiedIn(a, output) && Needed(c, g, a.node, output) {
      var slot := Slot(a.node, a.number, output);
      NeededNotReleased(c, g, slot);
      ScrubTidy(store.artifacts[slot]);
    }
  }

  lemma PayloadCleaned(c: Campaign, js: Journal, g: Groups, store: Store, intermediate: bool, a: Attempt)
    requires c.nodes.Keys <= g.Keys && PayloadOk(store, a)
    requires a.phase == Submitting ==> !PayloadSpent(js, PayloadName(a.node, a.number))
    ensures PayloadOk(Cleaned(c, js, g, store, intermediate), a) <==>
      (a.phase == Submitting ==> TidyPayload(store.payloads[PayloadName(a.node, a.number)]))
  {
    hide Released, ScrubTree, TidyPayload, PayloadSpent, ScrubPayload;
    if a.phase == Submitting { ScrubTidyPayload(store.payloads[PayloadName(a.node, a.number)]); }
  }

  lemma AttemptCleaned(c: Campaign, js: Journal, g: Groups, store: Store, intermediate: bool, a: Attempt)
    requires c.nodes.Keys <= g.Keys && PayloadOk(store, a) && SlotsOk(c, g, store, a)
    requires a.phase == Submitting ==> !PayloadSpent(js, PayloadName(a.node, a.number))
    ensures var clean := Cleaned(c, js, g, store, intermediate);
            PayloadOk(clean, a) && SlotsOk(c, g, clean, a) <==> AttemptTidy(c, g, store, a)
  {
    hide Needed, Cleaned, SlotOk, SlotTidy, TidyPayload, PayloadSpent;
    var clean := Cleaned(c, js, g, store, intermediate);
    PayloadCleaned(c, js, g, store, intermediate, a);
    forall output ensures SlotOk(c, g, clean, a, output) <==> SlotTidy(c, g, store, a, output) {
      assert SlotOk(c, g, store, a, output);
      SlotCleaned(c, js, g, store, intermediate, a, output);
    }
    forall output | output !in a.artifacts ensures SlotTidy(c, g, store, a, output) {
      NothingFiled(c, g, store, a, output);
    }
  }

  lemma NothingFiled(c: Campaign, g: Groups, store: Store, a: Attempt, output: string)
    requires c.nodes.Keys <= g.Keys && output !in a.artifacts
    ensures SlotTidy(c, g, store, a, output)
  {
  }

  /** The plan, carried out, leaves every payload that may be sent again and every artifact that
      may be staged again as it was, if and only if none of those holds a dot-name that ends
      like a leftover's. */
  lemma CleanupSafeIffTidy(c: Campaign, js: Journal, store: Store, intermediate: bool)
    requires Accepts(c, ListedGroups(c, js)) && Known(c, js) && StoreOk(c, ListedGroups(c, js), store)
    ensures var g := ListedGroups(c, js);
            StoreOk(c, g, Cleaned(c, js, g, store, intermediate)) <==> NeededTidy(c, g, store)
  {
    hide Accepts, Listed, AttemptTidy, Cleaned, PayloadOk, SlotsOk, PayloadSpent;
    var g: Groups := ListedGroups(c, js);
    forall id: string, i: nat | id in g && i < |g[id]|
      ensures PayloadOk(Cleaned(c, js, g, store, intermediate), g[id][i])
              && SlotsOk(c, g, Cleaned(c, js, g, store, intermediate), g[id][i])
              <==> AttemptTidy(c, g, store, g[id][i])
    {
      if g[id][i].phase == Submitting { SubmittingNotSpent(c, js, id, i); }
      AttemptCleaned(c, js, g, store, intermediate, g[id][i]);
    }
  }

  /** Wherever a cleanup stops, what is needed is untouched if none of it looks like a leftover. */
  lemma CutShort(c: Campaign, js: Journal, store: Store, debris: set<Debris>, intermediate: bool, plan: set<Item>,
                 store': Store)
    requires Accepts(c, ListedGroups(c, js)) && Known(c, js) && StoreOk(c, ListedGroups(c, js), store)
    requires forall item :: item in plan <==> Listable(c, js, ListedGroups(c, js), store, debris, intermediate, item)
    requires OnlyListed(plan, store, store')
    ensures NeededTidy(c, ListedGroups(c, js), store) ==> StoreOk(c, ListedGroups(c, js), store')
  {
    hide Accepts, Listed, AttemptTidy, PayloadOk, SlotsOk, PayloadSpent, Listable, OnlyListed;
    var g: Groups := ListedGroups(c, js);
    if NeededTidy(c, g, store) {
      forall id: string, i: nat | id in g && i < |g[id]|
        ensures PayloadOk(store', g[id][i]) && SlotsOk(c, g, store', g[id][i])
      {
        if g[id][i].phase == Submitting { SubmittingNotSpent(c, js, id, i); }
        assert AttemptTidy(c, g, store, g[id][i]);
        AttemptCutShort(c, js, g, store, debris, intermediate, plan, store', g[id][i]);
      }
    }
  }

  lemma AttemptCutShort(c: Campaign, js: Journal, g: Groups, store: Store, debris: set<Debris>, intermediate: bool,
                        plan: set<Item>, store': Store, a: Attempt)
    requires c.nodes.Keys <= g.Keys && PayloadOk(store, a) && SlotsOk(c, g, store, a) && AttemptTidy(c, g, store, a)
    requires a.phase == Submitting ==> !PayloadSpent(js, PayloadName(a.node, a.number))
    requires forall item :: item in plan <==> Listable(c, js, g, store, debris, intermediate, item)
    requires OnlyListed(plan, store, store')
    ensures PayloadOk(store', a) && SlotsOk(c, g, store', a)
  {
    hide Needed, Released, Tidy, TidyPayload, PayloadSpent;
    var name := PayloadName(a.node, a.number);
    assert DropPayload(name) in plan <==> Listable(c, js, g, store, debris, intermediate, DropPayload(name));
    assert TidyUpPayload(name) in plan <==> Listable(c, js, g, store, debris, intermediate, TidyUpPayload(name));
    forall output ensures SlotOk(c, g, store', a, output) {
      var slot := Slot(a.node, a.number, output);
      assert SlotOk(c, g, store, a, output) && SlotTidy(c, g, store, a, output);
      assert DropArtifact(slot) in plan <==> Listable(c, js, g, store, debris, intermediate, DropArtifact(slot));
      assert TidyUpArtifact(slot) in plan <==> Listable(c, js, g, store, debris, intermediate, TidyUpArtifact(slot));
      if Needed(c, g, slot.node, output) { NeededNotReleased(c, g, slot); }
    }
  }

  // --------------------------------------------------------------------
  // The condition is needed

  /** An attempt that succeeded with this verified output. */
  ghost function Published(c: Campaign, id: string, output: string, t: Tree, job: JobRef): Attempt {
    Attempt(id, 1, None, Key(c.digest, id, 1), Succeeded, Some(job), map[],
            map[output := ArtifactRecord(Manifest(id, 1, output, t), true)])
  }

  ghost function Filed(id: string, output: string, t: Tree): Store {
    Store(map[], map[Slot(id, 1, output) := t], map[Slot(id, 1, output) := Manifest(id, 1, output, t)])
  }

  /** In any campaign, for any node that depends on nothing and any output of it: if the output
      holds a lookalike, then journal and store agree once it is filed, and a cleanup, even
      without intermediates, leaves them at odds. */
  lemma LookalikeLost(c: Campaign, id: string, output: string, t: Tree, job: JobRef, intermediate: bool)
    requires id in c.nodes && Edges(c.nodes[id]) == map[] && c.nodes[id].inputs == []
    requires output in OutputNames(c.nodes[id]) && !Tidy(t)
    ensures var js := [Published(c, id, output, t, job)]; var g := ListedGroups(c, js);
            && Accepts(c, g) && Known(c, js) && StoreOk(c, g, Filed(id, output, t))
            && !StoreOk(c, g, Cleaned(c, js, g, Filed(id, output, t), intermediate))
  {
    hide Edges, Accepts, Cleaned, Tidy, StoreOk, NeededTidy, Listed;
    var a := Published(c, id, output, t, job);
    var g: Groups := ListedGroups(c, [a]);
    forall x | x in c.nodes ensures g[x] == if x == id then [a] else [] { ListedOne(a, x); }
    OneAttemptOk(c, id, output, t, job);
    LoneGroup(c, g, id);
    StillNeeded(c, g, id, output);
    FiledOk(c, g, id, output, t, job);
    CleanupSafeIffTidy(c, [a], Filed(id, output, t), intermediate);
    NotTidy(c, g, id, output, t, job);
  }

  lemma ListedOne(a: Attempt, x: string)
    ensures Listed([a], x) == if x == a.node then [a] else []
  {
    assert [a][..0] == [];
  }

  lemma OneAttemptOk(c: Campaign, id: string, output: string, t: Tree, job: JobRef)
    requires id in c.nodes && output in OutputNames(c.nodes[id])
    ensures NodeOk(c, id, [Published(c, id, output, t, job)])
  {
  }

  /** Nothing else was started, so whoever consumes the output still needs it. */
  lemma StillNeeded(c: Campaign, g: Groups, id: string, output: string)
    requires c.nodes.Keys <= g.Keys && id in c.nodes && c.nodes[id].inputs == []
    requires forall x :: x in c.nodes && x != id ==> g[x] == []
    ensures Needed(c, g, id, output)
  {
  }

  lemma FiledOk(c: Campaign, g: Groups, id: string, output: string, t: Tree, job: JobRef)
    requires c.nodes.Keys == g.Keys && id in c.nodes && g[id] == [Published(c, id, output, t, job)]
    requires forall x :: x in c.nodes && x != id ==> g[x] == []
    ensures StoreOk(c, g, Filed(id, output, t))
  {
    hide Needed;
    forall other ensures SlotOk(c, g, Filed(id, output, t), g[id][0], other) { }
  }

  lemma NotTidy(c: Campaign, g: Groups, id: string, output: string, t: Tree, job: JobRef)
    requires c.nodes.Keys <= g.Keys && id in g && g[id] == [Published(c, id, output, t, job)]
    requires Needed(c, g, id, output) && !Tidy(t)
    ensures !NeededTidy(c, g, Filed(id, output, t))
  {
    hide Needed, Tidy;
    assert output in g[id][0].artifacts && !SlotTidy(c, g, Filed(id, output, t), g[id][0], output);
    assert !AttemptTidy(c, g, Filed(id, output, t), g[id][0]);
  }

  /** A file named `.x.copy` is such a lookalike. */
  lemma Lookalike(content: string)
    ensures !Tidy(map[[".x.copy"] := content])
  {
    EndsHere(".x", ".copy");
    assert LeftoverName([".x.copy"][0]);
    assert LooksLeftOver([".x.copy"]);
  }
}
