/** The journal as a list, and the grouping that every reading of it starts from
    (src/vq/campaign.py:690-731). */
module CampaignJournal {
  import opened Common
  import opened CampaignGraph
  import opened CampaignStatus

  type Journal = seq<Attempt>

  /** The node's attempts in the order the journal lists them. */
  function Listed(js: Journal, id: string): seq<Attempt> {
    if js == [] then []
    else
      var last := js[|js| - 1];
      Listed(js[..|js| - 1], id) + (if last.node == id then [last] else [])
  }

  function Insert(s: seq<Attempt>, a: Attempt): seq<Attempt> {
    if s == [] || s[|s| - 1].number <= a.number then s + [a]
    else Insert(s[..|s| - 1], a) + [s[|s| - 1]]
  }

  /** Sorted by attempt number, equal numbers as listed. */
  function Sort(s: seq<Attempt>): seq<Attempt> {
    if s == [] then [] else Insert(Sort(s[..|s| - 1]), s[|s| - 1])
  }

  predicate Ordered(s: seq<Attempt>) {
    forall i, j :: 0 <= i < j < |s| ==> s[i].number <= s[j].number
  }

  lemma InsertLast(s: seq<Attempt>, a: Attempt)
    requires s != [] ==> s[|s| - 1].number <= a.number
    ensures Insert(s, a) == s + [a]
  {
  }

  lemma {:induction false} SortOrdered(s: seq<Attempt>)
    requires Ordered(s)
    ensures Sort(s) == s
  {
    if s != [] {
      var front, last := s[..|s| - 1], s[|s| - 1];
      hide Insert;
      SortOrdered(front);
      assert front != [] ==> s[|front| - 1].number <= last.number;
      InsertLast(front, last);
      assert s == front + [last];
    }
  }

  function GroupsOf(c: Campaign, js: Journal): Groups {
    map id | id in c.nodes :: Sort(Listed(js, id))
  }

  predicate Known(c: Campaign, js: Journal) {
    forall i :: 0 <= i < |js| ==> js[i].node in c.nodes
  }

  /** `campaign_status` accepts the journal. */
  ghost predicate JournalOk(c: Campaign, digest: string, js: Journal) {
    digest == c.digest && Known(c, js) && Accepts(c, GroupsOf(c, js))
  }

  /** The attempts per node as listed, unless one names an unknown node. */
  method Group(c: Campaign, js: Journal) returns (g: Option<Groups>)
    ensures g.Some? <==> Known(c, js)
    ensures g.Some? ==> g.value == ListedGroups(c, js)
  {
    hide Listed;
    var grouped: Groups := map id | id in c.nodes :: [];
    ListedNothing(c);
    assert js[..0] == [];
    for k := 0 to |js|
      invariant Known(c, js[..k]) && grouped == ListedGroups(c, js[..k])
    {
      if js[k].node !in c.nodes { return None; }
      assert js[..k + 1] == js[..k] + [js[k]];
      ListedGroupsAppend(c, js[..k], js[k]);
      grouped := grouped[js[k].node := grouped[js[k].node] + [js[k]]];
    }
    assert js[..|js|] == js;
    g := Some(grouped);
  }

  lemma ListedNothing(c: Campaign)
    ensures ListedGroups(c, []) == map id | id in c.nodes :: []
  {
  }

  lemma ListedGroupsAppend(c: Campaign, js: Journal, a: Attempt)
    requires a.node in c.nodes
    ensures ListedGroups(c, js + [a]) == ListedGroups(c, js)[a.node := Listed(js, a.node) + [a]]
  {
    hide Listed;
    forall id | id in c.nodes
      ensures Listed(js + [a], id) == if a.node == id then Listed(js, id) + [a] else Listed(js, id)
    {
      ListedAppend(js, a, id);
    }
  }

  /** Group and check; any inconsistency refuses the whole journal. */
  method AttemptsByNode(c: Campaign, digest: string, js: Journal) returns (g: Option<Groups>)
    ensures g.Some? <==>
      digest == c.digest && Known(c, js) && forall id :: id in c.nodes ==> NodeOk(c, id, GroupsOf(c, js)[id])
    ensures g.Some? ==> g.value == GroupsOf(c, js)
  {
    hide NodeOk, Sort, Listed, Known;
    if digest != c.digest { return None; }
    g := Group(c, js);
    if g.None? { return; }
    var grouped := g.value;
    var rest := c.nodes.Keys;
    while rest != {}
      invariant rest <= c.nodes.Keys && grouped.Keys == c.nodes.Keys
      invariant forall id :: id in rest ==> grouped[id] == Listed(js, id)
      invariant forall id :: id in c.nodes && id !in rest ==>
        grouped[id] == Sort(Listed(js, id)) && NodeOk(c, id, grouped[id])
      decreases |rest|
    {
      var id :| id in rest;
      grouped, rest := grouped[id := Sort(grouped[id])], rest - {id};
      if !NodeOk(c, id, grouped[id]) {
        assert grouped[id] == GroupsOf(c, js)[id];
        return None;
      }
    }
    g := Some(grouped);
  }

  // --------------------------------------------------------------------
  // Journals written by the controller list each node's attempts in order

  ghost predicate InOrder(c: Campaign, js: Journal) {
    forall id :: id in c.nodes ==> Ordered(Listed(js, id))
  }

  ghost function ListedGroups(c: Campaign, js: Journal): Groups {
    map id | id in c.nodes :: Listed(js, id)
  }

  lemma GroupsAreListed(c: Campaign, js: Journal)
    requires InOrder(c, js)
    ensures GroupsOf(c, js) == ListedGroups(c, js)
  {
    hide Sort, Listed;
    forall id | id in c.nodes ensures Sort(Listed(js, id)) == Listed(js, id) { SortOrdered(Listed(js, id)); }
  }

  lemma ListedAppend(js: Journal, a: Attempt, id: string)
    ensures Listed(js + [a], id) == if a.node == id then Listed(js, id) + [a] else Listed(js, id)
  {
    assert (js + [a])[..|js|] == js;
  }

  /** Numbers in an accepted group are 1, 2, ... */
  lemma GroupNumbers(c: Campaign, g: Groups, id: string, i: nat)
    requires Accepts(c, g) && id in c.nodes && i < |g[id]|
    ensures g[id][i].number == i + 1 && g[id][i].key == Key(c.digest, id, i + 1)
  {
    hide StartedOk;
    assert NodeOk(c, id, g[id]);
    assert AttemptOk(c, id, g[id], i);
  }

  lemma AppendGroups(c: Campaign, js: Journal, id: string, a: Attempt)
    requires InOrder(c, js) && id in c.nodes && a.node == id && Accepts(c, ListedGroups(c, js))
    requires a.number == |Listed(js, id)| + 1
    ensures InOrder(c, js + [a])
    ensures ListedGroups(c, js + [a]) == ListedGroups(c, js)[id := Listed(js, id) + [a]]
  {
    hide Accepts, Listed;
    forall x | x in c.nodes
      ensures Ordered(Listed(js + [a], x))
      ensures Listed(js + [a], x) == if x == id then Listed(js, x) + [a] else Listed(js, x)
    {
      ListedAppend(js, a, x);
      if x == id {
        forall i | 0 <= i < |Listed(js, id)| ensures Listed(js, id)[i].number <= a.number {
          GroupNumbers(c, ListedGroups(c, js), id, i);
        }
      }
    }
  }

  lemma AppendableFacts(c: Campaign, g: Groups, id: string, a: Attempt)
    requires id in c.nodes && c.nodes.Keys <= g.Keys && Appendable(c, g, id, a)
    ensures a.node == id && a.number == |g[id]| + 1
  {
  }

  /** Recording a new attempt: what `save` then checks always holds. */
  lemma AppendAccepted(c: Campaign, js: Journal, id: string, a: Attempt)
    requires WellFormed(c) && InOrder(c, js) && JournalOk(c, c.digest, js) && id in c.nodes
    requires Appendable(c, GroupsOf(c, js), id, a)
    ensures InOrder(c, js + [a]) && JournalOk(c, c.digest, js + [a])
  {
    hide Accepts, WellFormed, GroupsOf, Listed, Appendable, InOrder;
    GroupsAreListed(c, js);
    AppendableFacts(c, ListedGroups(c, js), id, a);
    AppendGroups(c, js, id, a);
    GroupsAreListed(c, js + [a]);
    NoSelfEdge(c, id);
    AppendKeeps(c, ListedGroups(c, js), id, a);
  }

  lemma {:induction false} ListedReplace(js: Journal, k: nat, a: Attempt, id: string)
    requires k < |js| && js[k].node == a.node
    requires forall i :: k < i < |js| ==> js[i].node != a.node
    ensures |Listed(js, a.node)| > 0
    ensures Listed(js[k := a], id) ==
            if id == a.node then Listed(js, id)[..|Listed(js, id)| - 1] + [a] else Listed(js, id)
    decreases |js|
  {
    var n := |js| - 1;
    var front, last := js[..n], js[n];
    if k == n {
      assert js[k := a][..n] == front;
    } else {
      assert js[k := a][..n] == front[k := a];
      ListedReplace(front, k, a, id);
      assert Listed(js, id) == Listed(front, id) + (if last.node == id then [last] else []);
    }
  }

  /** The latest attempt of a node, replaced in place. */
  lemma ReplaceAccepted(c: Campaign, js: Journal, k: nat, a: Attempt)
    requires WellFormed(c) && InOrder(c, js) && JournalOk(c, c.digest, js) && k < |js|
    requires js[k].node == a.node && forall i :: k < i < |js| ==> js[i].node != a.node
    requires js[k].node in c.nodes && MovesOn(c, js[k], a)
    ensures InOrder(c, js[k := a]) && JournalOk(c, c.digest, js[k := a])
  {
    hide Accepts, WellFormed, GroupsOf, Listed, InOrder;
    GroupsAreListed(c, js);
    ReplaceGroups(c, js, k, a);
    GroupsAreListed(c, js[k := a]);
    NoSelfEdge(c, a.node);
    MoveKeeps(c, ListedGroups(c, js), a.node, a);
  }

  lemma {:induction false} ListedLast(js: Journal, k: nat)
    requires k < |js| && forall i :: k < i < |js| ==> js[i].node != js[k].node
    ensures Listed(js, js[k].node) != []
    ensures Listed(js, js[k].node)[|Listed(js, js[k].node)| - 1] == js[k]
    decreases |js|
  {
    if k < |js| - 1 {
      assert js[..|js| - 1][k] == js[k];
      ListedLast(js[..|js| - 1], k);
    }
  }

  lemma ReplaceGroups(c: Campaign, js: Journal, k: nat, a: Attempt)
    requires InOrder(c, js) && k < |js| && js[k].node == a.node && a.node in c.nodes
    requires a.number == js[k].number && forall i :: k < i < |js| ==> js[i].node != a.node
    ensures var s := Listed(js, a.node);
            && s != [] && s[|s| - 1] == js[k]
            && ListedGroups(c, js[k := a]) == ListedGroups(c, js)[a.node := s[..|s| - 1] + [a]]
    ensures InOrder(c, js[k := a])
  {
    hide Listed;
    ListedLast(js, k);
    var s := Listed(js, a.node);
    forall x | x in c.nodes
      ensures Listed(js[k := a], x) == if x == a.node then s[..|s| - 1] + [a] else Listed(js, x)
      ensures Ordered(Listed(js[k := a], x))
    {
      ListedReplace(js, k, a, x);
      assert Ordered(Listed(js, x));
    }
  }

  // --------------------------------------------------------------------
  // A journal out of order

  ghost function Count(s: seq<Attempt>, number: nat): nat {
    if s == [] then 0 else Count(s[..|s| - 1], number) + (if s[|s| - 1].number == number then 1 else 0)
  }

  lemma {:induction false} CountInsert(s: seq<Attempt>, a: Attempt, number: nat)
    ensures Count(Insert(s, a), number) == Count(s, number) + (if a.number == number then 1 else 0)
  {
    if s == [] || s[|s| - 1].number <= a.number {
      assert (s + [a])[..|s|] == s;
    } else {
      var front, last := s[..|s| - 1], s[|s| - 1];
      CountInsert(front, a, number);
      assert (Insert(front, a) + [last])[..|Insert(front, a)|] == Insert(front, a);
    }
  }

  lemma {:induction false} CountSort(s: seq<Attempt>, number: nat)
    ensures Count(Sort(s), number) == Count(s, number)
  {
    if s != [] {
      CountSort(s[..|s| - 1], number);
      CountInsert(Sort(s[..|s| - 1]), s[|s| - 1], number);
    }
  }

  /** Numbered 1, 2, ...: each number up to the length once. */
  ghost predicate Numbered(s: seq<Attempt>) {
    forall i :: 0 <= i < |s| ==> s[i].number == i + 1
  }

  lemma {:induction false} CountNumbered(s: seq<Attempt>, number: nat)
    requires Numbered(s)
    ensures Count(s, number) == if 1 <= number <= |s| then 1 else 0
  {
    if s != [] { CountNumbered(s[..|s| - 1], number); }
  }

  lemma {:induction false} SortLength(s: seq<Attempt>)
    ensures |Sort(s)| == |s|
  {
    if s != [] {
      SortLength(s[..|s| - 1]);
      InsertLength(Sort(s[..|s| - 1]), s[|s| - 1]);
    }
  }

  lemma {:induction false} InsertLength(s: seq<Attempt>, a: Attempt)
    ensures |Insert(s, a)| == |s| + 1
  {
    if s != [] && s[|s| - 1].number > a.number { InsertLength(s[..|s| - 1], a); }
  }

  /** Numbered after the attempt listed last, a retry continues the sorted numbering exactly when
      that attempt is the latest. */
  lemma RetryNumberedIffListedLast(listed: seq<Attempt>, a: Attempt)
    requires Numbered(Sort(listed)) && listed != [] && a.number == listed[|listed| - 1].number + 1
    ensures Numbered(Sort(listed + [a])) <==> listed[|listed| - 1].number == |listed|
  {
    hide Sort, Insert;
    SortLength(listed);
    SortLength(listed + [a]);
    var last := listed[|listed| - 1].number;
    assert (listed + [a])[..|listed|] == listed;
    CountSort(listed, last);
    CountNumbered(Sort(listed), last);
    assert Count(listed, last) >= 1;
    if last == |listed| {
      SortAppend(listed, a);
      SortedTop(listed, a);
    } else {
      CountSort(listed, a.number);
      CountNumbered(Sort(listed), a.number);
      CountSort(listed + [a], a.number);
      assert Count(listed + [a], a.number) == 2;
      if Numbered(Sort(listed + [a])) { CountNumbered(Sort(listed + [a]), a.number); }
    }
  }

  /** The retry that `authorize_retry` builds on the attempt listed last. */
  function RetryOf(c: Campaign, js: Journal, id: string, inputs: map<string, Binding>): Attempt
    requires Listed(js, id) != []
  {
    var n := Listed(js, id)[|Listed(js, id)| - 1].number;
    Attempt(id, n + 1, Some(n), Key(c.digest, id, n + 1), Submitting, None, inputs, map[])
  }

  /** `authorize_retry` goes by the attempt listed last and stages what each producer's attempt
      listed last offers, while the check sorts first. So an accepted journal, in whatever order,
      accepts the retry if and only if the node's attempt listed last is its latest. */
  lemma RetryAcceptedIffListedLast(c: Campaign, js: Journal, id: string, inputs: map<string, Binding>)
    requires WellFormed(c) && JournalOk(c, c.digest, js) && id in c.nodes && Listed(js, id) != []
    requires Listed(js, id)[|Listed(js, id)| - 1].phase in {Failed, Cancelled}
    requires inputs.Keys <= InputNames(c.nodes[id])
    requires forall i :: 0 <= i < |c.nodes[id].inputs| ==> Bound(ListedGroups(c, js), c.nodes[id].inputs[i], inputs)
    ensures JournalOk(c, c.digest, js + [RetryOf(c, js, id, inputs)]) <==>
      Listed(js, id)[|Listed(js, id)| - 1].number == |Listed(js, id)|
  {
    hide *;
    var a := RetryOf(c, js, id, inputs);
    var listed := Listed(js, id);
    RetryFields(c, js, id, inputs);
    ListedAppend(js, a, id);
    AcceptedNumbered(c, js, id);
    RetryNumberedIffListedLast(listed, a);
    if JournalOk(c, c.digest, js + [a]) { AcceptedNumbered(c, js + [a], id); }
    if listed[|listed| - 1].number == |listed| {
      forall i | 0 <= i < |c.nodes[id].inputs| ensures Bound(GroupsOf(c, js), c.nodes[id].inputs[i], inputs) {
        BoundAsListed(c, js, c.nodes[id].inputs[i], inputs);
      }
      RetryAccepted(c, js, id, a);
    }
  }

  lemma RetryFields(c: Campaign, js: Journal, id: string, inputs: map<string, Binding>)
    requires Listed(js, id) != []
    ensures var a := RetryOf(c, js, id, inputs);
            a.node == id && a.inputs == inputs && a.number == Listed(js, id)[|Listed(js, id)| - 1].number + 1
  {
    hide Listed;
  }

  lemma {:induction false} InsertHas(s: seq<Attempt>, a: Attempt, x: Attempt)
    ensures x in Insert(s, a) <==> x in s || x == a
  {
    if s != [] && s[|s| - 1].number > a.number {
      InsertHas(s[..|s| - 1], a, x);
      assert s == s[..|s| - 1] + [s[|s| - 1]];
    }
  }

  lemma {:induction false} SortHas(s: seq<Attempt>, x: Attempt)
    ensures x in Sort(s) <==> x in s
  {
    if s != [] {
      SortHas(s[..|s| - 1], x);
      InsertHas(Sort(s[..|s| - 1]), s[|s| - 1], x);
      assert s == s[..|s| - 1] + [s[|s| - 1]];
    }
  }

  /** An attempt that did not fail is the latest of its node, wherever it is listed. */
  lemma UnfailedIsLatest(c: Campaign, js: Journal, id: string, x: Attempt)
    requires JournalOk(c, c.digest, js) && id in c.nodes && x in Listed(js, id) && x.phase !in {Failed, Cancelled}
    ensures var s := GroupsOf(c, js)[id]; s != [] && s[|s| - 1] == x
  {
    hide Sort, Listed, StartedOk;
    var s := GroupsOf(c, js)[id];
    SortHas(Listed(js, id), x);
    var i :| 0 <= i < |s| && s[i] == x;
    assert NodeOk(c, id, s);
    assert i + 1 < |s| ==> AttemptOk(c, id, s, i + 1);
  }

  /** What a producer offers as listed it offers. */
  lemma OfferAsListed(c: Campaign, js: Journal, id: string, output: string)
    requires JournalOk(c, c.digest, js) && id in c.nodes && Offer(Listed(js, id), output).Some?
    ensures Offer(GroupsOf(c, js)[id], output) == Offer(Listed(js, id), output)
  {
    hide Sort, Listed, Accepts;
    var listed := Listed(js, id);
    UnfailedIsLatest(c, js, id, listed[|listed| - 1]);
  }

  lemma BoundAsListed(c: Campaign, js: Journal, item: Input, inputs: map<string, Binding>)
    requires JournalOk(c, c.digest, js) && Bound(ListedGroups(c, js), item, inputs)
    ensures Bound(GroupsOf(c, js), item, inputs)
  {
    hide Sort, Listed, Accepts, Offer;
    OfferAsListed(c, js, item.producer, item.output);
  }

  /** The latest attempt is at its number's place. */
  lemma TopListed(s: seq<Attempt>, x: Attempt)
    requires Numbered(s) && x in s && x.number == |s|
    ensures s[|s| - 1] == x
  {
  }

  lemma RetryAccepted(c: Campaign, js: Journal, id: string, a: Attempt)
    requires WellFormed(c) && JournalOk(c, c.digest, js) && id in c.nodes && Listed(js, id) != []
    requires var last := Listed(js, id)[|Listed(js, id)| - 1];
             && last.number == |Listed(js, id)| && last.phase in {Failed, Cancelled}
             && a == RetryOf(c, js, id, a.inputs)
    requires a.inputs.Keys <= InputNames(c.nodes[id])
    requires forall i :: 0 <= i < |c.nodes[id].inputs| ==> Bound(GroupsOf(c, js), c.nodes[id].inputs[i], a.inputs)
    ensures JournalOk(c, c.digest, js + [a])
  {
    hide *;
    var g := GroupsOf(c, js);
    Unfold(c, js);
    LastIsTop(c, js, id);
    RetryShape(c, js, id, a);
    RetryAppendable(c, g, id, a);
    NoSelfEdge(c, id);
    AppendKeeps(c, g, id, a);
    GroupsAppend(c, js, id, a);
    Fold(c, js, id, a);
  }

  lemma Unfold(c: Campaign, js: Journal)
    requires JournalOk(c, c.digest, js)
    ensures Known(c, js) && Accepts(c, GroupsOf(c, js)) && GroupsOf(c, js).Keys == c.nodes.Keys
  {
    hide Accepts, Sort, Listed;
  }

  lemma Fold(c: Campaign, js: Journal, id: string, a: Attempt)
    requires Known(c, js) && id in c.nodes && a.node == id && id in GroupsOf(c, js)
    requires GroupsOf(c, js + [a]) == GroupsOf(c, js)[id := GroupsOf(c, js)[id] + [a]]
    requires Accepts(c, GroupsOf(c, js)[id := GroupsOf(c, js)[id] + [a]])
    ensures JournalOk(c, c.digest, js + [a])
  {
    hide Accepts, Sort, Listed, GroupsOf;
  }

  lemma RetryShape(c: Campaign, js: Journal, id: string, a: Attempt)
    requires Listed(js, id) != [] && a == RetryOf(c, js, id, a.inputs)
    ensures var n := Listed(js, id)[|Listed(js, id)| - 1].number;
            a == Attempt(id, n + 1, Some(n), Key(c.digest, id, n + 1), Submitting, None, a.inputs, map[])
  {
    hide Listed;
  }

  /** The attempt listed last, when it is the latest, is the last once sorted. */
  lemma LastIsTop(c: Campaign, js: Journal, id: string)
    requires JournalOk(c, c.digest, js) && id in c.nodes && Listed(js, id) != []
    requires Listed(js, id)[|Listed(js, id)| - 1].number == |Listed(js, id)|
    ensures GroupsOf(c, js)[id] == Sort(Listed(js, id)) && Numbered(Sort(Listed(js, id)))
    ensures var s := GroupsOf(c, js)[id]; |s| == |Listed(js, id)| && s[|s| - 1] == Listed(js, id)[|s| - 1]
  {
    hide Sort, Listed, Accepts;
    var listed := Listed(js, id);
    AcceptedNumbered(c, js, id);
    SortLength(listed);
    SortHas(listed, listed[|listed| - 1]);
    TopListed(Sort(listed), listed[|listed| - 1]);
  }

  lemma RetryAppendable(c: Campaign, g: Groups, id: string, a: Attempt)
    requires id in c.nodes && c.nodes.Keys <= g.Keys && g[id] != []
    requires g[id][|g[id]| - 1].phase in {Failed, Cancelled} && a.inputs.Keys <= InputNames(c.nodes[id])
    requires var n := |g[id]|;
             a == Attempt(id, n + 1, Some(n), Key(c.digest, id, n + 1), Submitting, None, a.inputs, map[])
    requires forall i :: 0 <= i < |c.nodes[id].inputs| ==> Bound(g, c.nodes[id].inputs[i], a.inputs)
    ensures Appendable(c, g, id, a)
  {
    hide Bound, InputNames, Edges;
  }

  /** A journal grown by an attempt above all others of its node. */
  lemma GroupsAppend(c: Campaign, js: Journal, id: string, a: Attempt)
    requires id in c.nodes && a.node == id
    requires var s := Sort(Listed(js, id)); Numbered(s) && a.number == |s| + 1
    ensures GroupsOf(c, js + [a]) == GroupsOf(c, js)[id := GroupsOf(c, js)[id] + [a]]
  {
    hide Sort, Insert, Listed;
    SortAppend(Listed(js, id), a);
    InsertLast(Sort(Listed(js, id)), a);
    forall x | x in c.nodes
      ensures Sort(Listed(js + [a], x)) == if x == id then Sort(Listed(js, x)) + [a] else Sort(Listed(js, x))
    {
      ListedAppend(js, a, x);
    }
  }

  /** Two failed attempts of a node that depends on nothing, and the retry that takes the first
      for the latest. */
  ghost function Failure(c: Campaign, id: string, number: nat, retryOf: Option<nat>): Attempt {
    Attempt(id, number, retryOf, Key(c.digest, id, number), Failed, None, map[], map[])
  }

  ghost function Retry(c: Campaign, id: string): Attempt {
    Attempt(id, 2, Some(1), Key(c.digest, id, 2), Submitting, None, map[], map[])
  }

  /** The failing case, in any campaign, for any node that depends on nothing: a journal that lists
      its attempt 2 before its attempt 1 is accepted, and with the retry that the last listed
      attempt leads to it is not. */
  lemma OutOfOrderRetryRefused(c: Campaign, id: string)
    requires id in c.nodes && Edges(c.nodes[id]) == map[] && c.nodes[id].inputs == []
    ensures var js := [Failure(c, id, 2, Some(1)), Failure(c, id, 1, None)];
            && JournalOk(c, c.digest, js) && js[1].phase == Failed
            && Retry(c, id).number == js[1].number + 1
            && !JournalOk(c, c.digest, js + [Retry(c, id)])
  {
    hide Edges, Sort, Listed, Accepts, NodeOk;
    var first, second := Failure(c, id, 1, None), Failure(c, id, 2, Some(1));
    var js := [second, first];
    var g := GroupsOf(c, js);
    SwappedSorts(first, second);
    forall x | x in c.nodes ensures g[x] == if x == id then [first, second] else [] { ListedTwo(js, id, x); }
    BothFailed(c, id);
    LoneGroup(c, g, id);
    var js' := js + [Retry(c, id)];
    assert js'[..2] == js;
    ListedTwo(js, id, id);
    ListedThree(js', js, id);
    RetryNumberedIffListedLast(js, Retry(c, id));
    if JournalOk(c, c.digest, js') { AcceptedNumbered(c, js', id); }
  }

  lemma BothFailed(c: Campaign, id: string)
    requires id in c.nodes
    ensures NodeOk(c, id, [Failure(c, id, 1, None), Failure(c, id, 2, Some(1))])
  {
  }

  /** A journal about one node that depends on nothing is accepted when its attempts are. */
  lemma LoneGroup(c: Campaign, g: Groups, id: string)
    requires g.Keys == c.nodes.Keys && id in c.nodes && NodeOk(c, id, g[id])
    requires Edges(c.nodes[id]) == map[] && c.nodes[id].inputs == []
    requires forall x :: x in c.nodes && x != id ==> g[x] == []
    ensures Accepts(c, g)
  {
    hide Edges;
    forall x | x in c.nodes ensures NodeOk(c, x, g[x]) && StartedOk(c, g, x) { }
  }

  lemma ListedThree(js: Journal, two: Journal, id: string)
    requires |js| == 3 && js[..2] == two && Listed(two, id) == two && js[2].node == id
    ensures Listed(js, id) == js
  {
    assert two + [js[2]] == js;
  }

  lemma AcceptedNumbered(c: Campaign, js: Journal, id: string)
    requires JournalOk(c, c.digest, js) && id in c.nodes
    ensures Numbered(Sort(Listed(js, id)))
  {
    hide Sort, Listed, StartedOk;
    var s := GroupsOf(c, js)[id];
    forall i | 0 <= i < |s| ensures s[i].number == i + 1 { assert AttemptOk(c, id, s, i); }
  }

  lemma ListedTwo(js: Journal, id: string, x: string)
    requires |js| == 2 && js[0].node == js[1].node == id
    ensures Listed(js, x) == if x == id then js else []
  {
    assert js[..1] == [js[0]] && [js[0]][..0] == [];
    assert Listed([js[0]], x) == if x == id then [js[0]] else [];
    assert [js[0]] + [js[1]] == js;
  }

  lemma SwappedSorts(first: Attempt, second: Attempt)
    requires first.number == 1 && second.number == 2
    ensures Sort([second, first]) == [first, second] && Sort([]) == []
  {
    var listed := [second, first];
    assert listed[..1] == [second] && [second][..0] == [];
    assert Sort([second]) == Insert(Sort([]), second) == [second];
    assert Sort(listed) == Insert([second], first) == [first, second];
  }

  lemma SortAppend(listed: seq<Attempt>, a: Attempt)
    ensures Sort(listed + [a]) == Insert(Sort(listed), a)
  {
    assert (listed + [a])[..|listed|] == listed;
  }

  lemma SortedTop(listed: seq<Attempt>, a: Attempt)
    requires Numbered(Sort(listed)) && |Sort(listed)| == |listed| && a.number == |listed| + 1
    ensures Numbered(Insert(Sort(listed), a))
  {
    InsertLast(Sort(listed), a);
  }
}
