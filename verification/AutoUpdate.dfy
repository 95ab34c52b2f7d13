/** Unattended updates never go back (src/vq/auto_update.py:190-277, 378-514, 597-842). */
module AutoUpdate {
  import opened Common
  import opened SemVer
  import StringOrder

  predicate IsVersion(tag: string) {
    Parse(tag).Some?
  }

  /** Precedence between tags; build metadata does not count. */
  ghost predicate TagBelow(a: string, b: string) {
    IsVersion(a) && IsVersion(b) && Below(Parse(a).value, Parse(b).value)
  }

  ghost predicate SamePrecedence(a: string, b: string) {
    IsVersion(a) && IsVersion(b) && Parse(a).value == Parse(b).value
  }

  /** The program compares the tags' keys. */
  predicate KeyBelow(a: string, b: string)
    ensures KeyBelow(a, b) <==> TagBelow(a, b)
  {
    hide Parse, Below, KeyLess, KeyOf;
    if !IsVersion(a) || !IsVersion(b) then false
    else
      KeyIsPrecedence(Parse(a).value, Parse(b).value);
      KeyLess(KeyOf(Parse(a).value), KeyOf(Parse(b).value))
  }

  predicate SameKey(a: string, b: string)
    ensures SameKey(a, b) <==> SamePrecedence(a, b)
  {
    hide Parse, Below, KeyLess, KeyOf;
    if !IsVersion(a) || !IsVersion(b) then false
    else
      KeyIsPrecedence(Parse(a).value, Parse(b).value);
      KeyOf(Parse(a).value) == KeyOf(Parse(b).value)
  }

  lemma TagTotal(a: string, b: string)
    requires IsVersion(a) && IsVersion(b)
    ensures SamePrecedence(a, b) || TagBelow(a, b) || TagBelow(b, a)
    ensures !(TagBelow(a, b) && TagBelow(b, a)) && (SamePrecedence(a, b) ==> !TagBelow(a, b))
  {
    hide Below, Parse;
    BelowTotal(Parse(a).value, Parse(b).value);
  }

  lemma TagTransitive(a: string, b: string, c: string)
    requires (TagBelow(a, b) || SamePrecedence(a, b)) && (TagBelow(b, c) || SamePrecedence(b, c))
    ensures TagBelow(a, c) || SamePrecedence(a, c)
    ensures TagBelow(a, b) || TagBelow(b, c) ==> TagBelow(a, c)
  {
    hide Below, Parse;
    if TagBelow(a, b) && TagBelow(b, c) { BelowTransitive(Parse(a).value, Parse(b).value, Parse(c).value); }
  }

  // --------------------------------------------------------------------
  // The newest tag

  /** The order the tags are sorted in: precedence, then spelling. */
  predicate SortsBefore(a: string, b: string)
    ensures SortsBefore(a, b) <==> TagBelow(a, b) || (SamePrecedence(a, b) && StringOrder.Less(a, b))
  {
    KeyBelow(a, b) || (SameKey(a, b) && StringOrder.Less(a, b))
  }

  ghost predicate IsNewest(tags: set<string>, t: string) {
    t in tags && IsVersion(t) && forall u :: u in tags && IsVersion(u) && u != t ==> SortsBefore(u, t)
  }

  method Newest(tags: set<string>) returns (newest: Option<string>)
    ensures newest.None? <==> forall t :: t in tags ==> !IsVersion(t)
    ensures newest.Some? ==> IsNewest(tags, newest.value)
  {
    hide Parse, TagBelow, SamePrecedence;
    newest := None;
    var rest := tags;
    while rest != {}
      invariant rest <= tags
      invariant newest.None? <==> forall t :: t in tags - rest ==> !IsVersion(t)
      invariant newest.Some? ==> IsNewest(tags - rest, newest.value)
      decreases |rest|
    {
      var t :| t in rest;
      if IsVersion(t) {
        if newest.Some? { NewestStep(tags - rest, newest.value, t); }
        if newest.None? || SortsBefore(newest.value, t) { newest := Some(t); }
      }
      assert tags - (rest - {t}) == tags - rest + {t};
      rest := rest - {t};
    }
    assert tags - {} == tags;
  }

  lemma NewestStep(seen: set<string>, best: string, t: string)
    requires IsNewest(seen, best) && t !in seen && IsVersion(t)
    ensures SortsBefore(best, t) ==> IsNewest(seen + {t}, t)
    ensures !SortsBefore(best, t) ==> IsNewest(seen + {t}, best)
  {
    hide Parse;
    TagTotal(best, t);
    StringOrder.LessTotal(best, t);
    if SortsBefore(best, t) {
      forall u | u in seen && IsVersion(u) ensures SortsBefore(u, t) {
        if u != best {
          TagTransitive(u, best, t);
          if SamePrecedence(u, best) && SamePrecedence(best, t) { StringOrder.LessTransitive(u, best, t); }
        }
      }
    }
  }

  /** The spellings that share the highest precedence. */
  function Peers(tags: set<string>): set<string> {
    set t | t in tags && IsVersion(t) && forall u :: u in tags ==> !KeyBelow(t, u)
  }

  /** The newest tag is a peer, and alone exactly when every other tag is below it. */
  lemma NewestAlone(tags: set<string>, t: string)
    requires IsNewest(tags, t)
    ensures t in Peers(tags)
    ensures |Peers(tags)| <= 1 <==> forall u :: u in tags && IsVersion(u) && u != t ==> TagBelow(u, t)
  {
    hide Parse;
    forall u | u in tags ensures !TagBelow(t, u) {
      if IsVersion(u) { TagTotal(u, t); }
    }
    if forall u :: u in tags && IsVersion(u) && u != t ==> TagBelow(u, t) {
      assert Peers(tags) == {t};
    } else {
      var u :| u in tags && IsVersion(u) && u != t && !TagBelow(u, t);
      forall x | x in tags ensures !TagBelow(u, x) {
        if IsVersion(x) && TagBelow(u, x) {
          TagTransitive(t, u, x);
        }
      }
      assert {t, u} <= Peers(tags);
      SubsetCard({t, u}, Peers(tags));
    }
  }

  lemma {:induction false} SubsetCard(a: set<string>, b: set<string>)
    requires a <= b
    ensures |a| <= |b|
  {
    if a != {} {
      var x :| x in a;
      SubsetCard(a - {x}, b - {x});
    }
  }

  // --------------------------------------------------------------------
  // Tag mode

  datatype Decision = Update(current: string, target: string) | Skip | Error

  /** The one version tag with every other strictly below it. */
  ghost predicate Top(tags: set<string>, t: string) {
    t in tags && IsVersion(t) && forall u :: u in tags && IsVersion(u) && u != t ==> TagBelow(u, t)
  }

  /** The checkout is exactly at one version tag, the remote has one unambiguous newest, and it
      has not moved the tag the checkout is at. */
  ghost predicate Known(
    remote: map<string, string>, local: set<string>, head: string, current: string, target: string)
  {
    Top(remote.Keys, target) && Top(local, current) && (current in remote ==> remote[current] == head)
  }

  /** An update is due: the newest tag is strictly above the checkout's. */
  ghost predicate Due(remote: map<string, string>, local: set<string>, head: string, current: string, target: string) {
    Known(remote, local, head, current, target) && TagBelow(current, target)
  }

  /** There is nothing to do: the checkout is at the newest tag, or above it. */
  ghost predicate UpToDate(
    remote: map<string, string>, local: set<string>, head: string, current: string, target: string)
  {
    Known(remote, local, head, current, target) && (current == target || TagBelow(target, current))
  }

  /** The decision in tag mode; what could not be read is None. */
  method CheckTagDrift(remote: Option<map<string, string>>, local: Option<set<string>>, head: Option<string>)
    returns (d: Decision)
    ensures d.Update? ==> remote.Some? && local.Some? && head.Some?
                          && Due(remote.value, local.value, head.value, d.current, d.target)
    ensures remote.Some? && local.Some? && head.Some? && !d.Update? ==>
      forall current, target :: !Due(remote.value, local.value, head.value, current, target)
    ensures d.Skip? <==>
      && remote.Some? && local.Some? && head.Some?
      && exists current, target :: UpToDate(remote.value, local.value, head.value, current, target)
  {
    hide Parse, TagBelow, SamePrecedence, Peers;
    if remote.None? { return Error; }
    var newest := Newest(remote.value.Keys);
    if newest.None? { return Error; }
    NewestAlone(remote.value.Keys, newest.value);
    NewestUnique(remote.value.Keys, newest.value);
    if |Peers(remote.value.Keys)| > 1 { return Error; }
    if local.None? { return Error; }
    var current := Newest(local.value);
    if current.Some? {
      NewestAlone(local.value, current.value);
      NewestUnique(local.value, current.value);
    }
    if current.None? || |Peers(local.value)| > 1 { return Error; }
    if head.None? { return Error; }
    var here, there := current.value, newest.value;
    if here in remote.value && remote.value[here] != head.value { return Error; }
    TagTotal(here, there);
    assert Known(remote.value, local.value, head.value, here, there);
    if here == there || KeyBelow(there, here) {
      assert UpToDate(remote.value, local.value, head.value, here, there);
      return Skip;
    }
    if SameKey(here, there) { return Error; }
    d := Update(here, there);
  }

  /** Whatever is strictly above all the others is the newest. */
  lemma NewestUnique(tags: set<string>, t: string)
    requires IsNewest(tags, t)
    ensures forall x :: Top(tags, x) ==> x == t
  {
    hide Parse;
    forall x | Top(tags, x) ensures x == t {
      TopIsNewest(tags, t, x);
    }
  }

  lemma TopIsNewest(tags: set<string>, t: string, x: string)
    requires IsNewest(tags, t) && Top(tags, x)
    ensures x == t
  {
    hide Parse;
    assert x != t ==> TagBelow(t, x) && SortsBefore(x, t);
    TagTotal(t, x);
  }

  /** One applied update: what the check saw, and what it decided. */
  datatype Applied = Applied(
    remote: map<string, string>, local: set<string>, head: string, current: string, target: string)

  /** Each update was due, and the checkout it left is at its target's tag when the next one is
      decided. */
  ghost predicate UpdateHistory(h: seq<Applied>) {
    && (forall i :: 0 <= i < |h| ==> Due(h[i].remote, h[i].local, h[i].head, h[i].current, h[i].target))
    && (forall i :: 0 < i < |h| ==> h[i - 1].target in h[i].local)
  }

  /** Any sequence of applied tag updates is strictly increasing. */
  lemma {:induction false} UpdatesIncrease(h: seq<Applied>, i: nat, j: nat)
    requires UpdateHistory(h) && i < j < |h|
    ensures TagBelow(h[i].target, h[j].target) && TagBelow(h[i].current, h[j].current)
    decreases j
  {
    hide Parse, TagBelow, SamePrecedence;
    var k := j - 1;
    assert Due(h[k].remote, h[k].local, h[k].head, h[k].current, h[k].target);
    assert Due(h[j].remote, h[j].local, h[j].head, h[j].current, h[j].target);
    assert h[j - 1].target in h[j].local;
    AtLeastHere(h[j].local, h[j].current, h[k].target);
    TagTransitive(h[k].target, h[j].current, h[j].target);
    TagTransitive(h[k].current, h[k].target, h[j].current);
    if i < k {
      UpdatesIncrease(h, i, k);
      TagTransitive(h[i].target, h[k].target, h[j].target);
      TagTransitive(h[i].current, h[k].current, h[j].current);
    }
  }

  lemma AtLeastHere(local: set<string>, current: string, tag: string)
    requires Top(local, current) && tag in local && IsVersion(tag)
    ensures TagBelow(tag, current) || SamePrecedence(tag, current)
  {
  }

  // --------------------------------------------------------------------
  // The remote's tag list

  /** A line of the listing: an object id and a ref, or a line with no tab in it. */
  datatype Row = Row(sha: string, ref: string) | NoTab(namesTags: bool)

  const TAGS := "refs/tags/"
  const PEELED := "^{}"

  predicate IsTagRow(r: Row) {
    r.Row? && |r.ref| >= |TAGS| && r.ref[..|TAGS|] == TAGS
  }

  predicate IsPeeled(r: Row)
    requires IsTagRow(r)
  {
    var name := r.ref[|TAGS|..];
    |name| >= |PEELED| && name[|name| - |PEELED|..] == PEELED
  }

  function TagName(r: Row): string
    requires IsTagRow(r)
  {
    var name := r.ref[|TAGS|..];
    if IsPeeled(r) then name[..|name| - |PEELED|] else name
  }

  predicate FullSha(s: string) {
    |s| == 40 && forall i :: 0 <= i < 40 ==> '0' <= s[i] <= '9' || 'a' <= s[i] <= 'f'
  }

  predicate RowOk(r: Row) {
    if IsTagRow(r) then FullSha(r.sha) && TagName(r) != "" else r.Row? || !r.namesTags
  }

  /** The row gives this tag this id: its ref is the tag's, with the suffix exactly when it is peeled. */
  ghost predicate Says(r: Row, peeled: bool, tag: string, sha: string) {
    && r == Row(sha, "refs/tags/" + tag + (if peeled then "^{}" else ""))
    && (!peeled && |tag| >= 3 ==> tag[|tag| - 3..] != "^{}")
  }

  /** No tab where tags are named, no id that is not forty hexadecimal digits, no nameless tag. */
  ghost predicate WellFormed(r: Row) {
    match r
    case NoTab(namesTags) => !namesTags
    case Row(sha, ref) => "refs/tags/" <= ref ==>
      && |sha| == 40 && (forall i :: 0 <= i < 40 ==> sha[i] in "0123456789abcdef")
      && ref != "refs/tags/" && ref != "refs/tags/^{}"
  }

  lemma RowMeans(r: Row)
    ensures IsTagRow(r) ==> Says(r, IsPeeled(r), TagName(r), r.sha)
    ensures forall peeled, tag, sha :: Says(r, peeled, tag, sha) ==>
      IsTagRow(r) && IsPeeled(r) == peeled && TagName(r) == tag && r.sha == sha
  {
    if IsTagRow(r) {
      var name := r.ref[|TAGS|..];
      assert r.ref == TAGS + name;
      assert IsPeeled(r) ==> name == name[..|name| - |PEELED|] + PEELED;
    }
    forall peeled, tag, sha | Says(r, peeled, tag, sha)
      ensures IsTagRow(r) && IsPeeled(r) == peeled && TagName(r) == tag && r.sha == sha
    {
      SaysUnique(r, peeled, tag, sha);
    }
  }

  lemma SaysUnique(r: Row, peeled: bool, tag: string, sha: string)
    requires Says(r, peeled, tag, sha)
    ensures IsTagRow(r) && IsPeeled(r) == peeled && TagName(r) == tag && r.sha == sha
  {
    var name := tag + (if peeled then "^{}" else "");
    assert r.ref == TAGS + name;
    assert r.ref[|TAGS|..] == name;
    if peeled {
      assert name[|name| - |PEELED|..] == PEELED && name[..|name| - |PEELED|] == tag;
    }
  }

  lemma RowOkMeans(r: Row)
    ensures RowOk(r) <==> WellFormed(r)
  {
    if IsTagRow(r) {
      var name := r.ref[|TAGS|..];
      assert r.ref == TAGS + name && "refs/tags/^{}" == TAGS + PEELED;
      assert TagName(r) == "" <==> name == "" || name == PEELED;
    }
  }

  /** Some row of this kind gives the tag this identity. */
  ghost predicate Gives(rows: seq<Row>, peeled: bool, tag: string, sha: string) {
    exists i :: 0 <= i < |rows| && Says(rows[i], peeled, tag, sha)
  }

  /** The rows of this kind say exactly this, and do not contradict each other. */
  ghost predicate Table(rows: seq<Row>, peeled: bool, m: map<string, string>) {
    && (forall tag, sha :: Gives(rows, peeled, tag, sha) ==> tag in m && m[tag] == sha)
    && (forall tag :: tag in m ==> Gives(rows, peeled, tag, m[tag]))
  }

  lemma GivesAppend(rows: seq<Row>, r: Row, peeled: bool, tag: string, sha: string)
    ensures Gives(rows + [r], peeled, tag, sha) <==>
      Gives(rows, peeled, tag, sha) || Says(r, peeled, tag, sha)
  {
    hide Says;
    var all := rows + [r];
    if Gives(rows, peeled, tag, sha) {
      var i :| 0 <= i < |rows| && Says(rows[i], peeled, tag, sha);
      assert all[i] == rows[i];
    }
    if Says(r, peeled, tag, sha) { assert all[|rows|] == r; }
  }

  lemma TableOther(rows: seq<Row>, r: Row, peeled: bool, m: map<string, string>)
    requires Table(rows, peeled, m) && (!IsTagRow(r) || IsPeeled(r) != peeled)
    ensures Table(rows + [r], peeled, m)
  {
    hide IsPeeled, TagName, Gives, Says;
    RowMeans(r);
    forall tag, sha ensures Gives(rows + [r], peeled, tag, sha) <==> Gives(rows, peeled, tag, sha) {
      GivesAppend(rows, r, peeled, tag, sha);
    }
  }

  lemma TableAdd(rows: seq<Row>, r: Row, m: map<string, string>)
    requires IsTagRow(r) && Table(rows, IsPeeled(r), m) && (TagName(r) in m ==> m[TagName(r)] == r.sha)
    ensures Table(rows + [r], IsPeeled(r), m[TagName(r) := r.sha])
  {
    hide IsPeeled, TagName, Gives, Says;
    RowMeans(r);
    forall tag, sha
      ensures Gives(rows + [r], IsPeeled(r), tag, sha) <==>
        Gives(rows, IsPeeled(r), tag, sha) || (TagName(r) == tag && r.sha == sha)
    {
      GivesAppend(rows, r, IsPeeled(r), tag, sha);
    }
  }

  /** No row contradicts another of its kind, and every peeled row has its direct one. */
  ghost predicate Coherent(rows: seq<Row>) {
    && (forall peeled, tag, x, y :: Gives(rows, peeled, tag, x) && Gives(rows, peeled, tag, y) ==> x == y)
    && (forall tag, x :: Gives(rows, true, tag, x) ==> exists y :: Gives(rows, false, tag, y))
  }

  /** The whole inventory, or nothing: one bad or contradictory row refuses it. A tag's identity
      is its peeled row's, or its direct row's where there is no peeled one. */
  method RemoteTagRefs(rows: seq<Row>) returns (refs: Option<map<string, string>>)
    ensures refs.Some? <==> (forall i :: 0 <= i < |rows| ==> WellFormed(rows[i])) && Coherent(rows)
    ensures refs.Some? ==> forall tag :: tag in refs.value <==> exists sha :: Gives(rows, false, tag, sha)
    ensures refs.Some? ==> forall tag :: tag in refs.value ==>
      Gives(rows, true, tag, refs.value[tag])
      || (Gives(rows, false, tag, refs.value[tag]) && forall sha :: !Gives(rows, true, tag, sha))
  {
    hide IsPeeled, TagName, Gives, Table, RowOk, WellFormed, Says;
    var direct: map<string, string> := map[];
    var peeled: map<string, string> := map[];
    EmptyTables();
    for k := 0 to |rows|
      invariant forall i :: 0 <= i < k ==> WellFormed(rows[i])
      invariant Table(rows[..k], false, direct) && Table(rows[..k], true, peeled)
    {
      var r := rows[k];
      assert rows[..k + 1] == rows[..k] + [r];
      RowOkMeans(r);
      if !RowOk(r) { return None; }
      if !IsTagRow(r) {
        TableOther(rows[..k], r, false, direct);
        TableOther(rows[..k], r, true, peeled);
      } else if IsPeeled(r) {
        if TagName(r) in peeled && peeled[TagName(r)] != r.sha {
          Contradicts(rows, k, peeled);
          return None;
        }
        TableAdd(rows[..k], r, peeled);
        TableOther(rows[..k], r, false, direct);
        peeled := peeled[TagName(r) := r.sha];
      } else {
        if TagName(r) in direct && direct[TagName(r)] != r.sha {
          Contradicts(rows, k, direct);
          return None;
        }
        TableAdd(rows[..k], r, direct);
        TableOther(rows[..k], r, true, peeled);
        direct := direct[TagName(r) := r.sha];
      }
    }
    assert rows[..|rows|] == rows;
    TablesCoherent(rows, direct, peeled);
    if !(peeled.Keys <= direct.Keys) { return None; }
    refs := Some(map tag | tag in direct :: if tag in peeled then peeled[tag] else direct[tag]);
    TableShows(rows, direct, peeled);
  }

  lemma EmptyTables()
    ensures Table([], false, map[]) && Table([], true, map[])
  {
  }

  lemma {:induction false} GivesPrefix(rows: seq<Row>, k: nat, peeled: bool, tag: string, sha: string)
    requires k <= |rows| && Gives(rows[..k], peeled, tag, sha)
    ensures Gives(rows, peeled, tag, sha)
  {
    hide Says;
    var i :| 0 <= i < k && Says(rows[..k][i], peeled, tag, sha);
    assert rows[i] == rows[..k][i];
  }

  lemma Contradicts(rows: seq<Row>, k: nat, m: map<string, string>)
    requires k < |rows| && IsTagRow(rows[k]) && Table(rows[..k], IsPeeled(rows[k]), m)
    requires TagName(rows[k]) in m && m[TagName(rows[k])] != rows[k].sha
    ensures !Coherent(rows)
  {
    hide IsPeeled, TagName, Says;
    var tag := TagName(rows[k]);
    RowMeans(rows[k]);
    GivesPrefix(rows, k, IsPeeled(rows[k]), tag, m[tag]);
    assert Gives(rows, IsPeeled(rows[k]), tag, rows[k].sha);
  }

  lemma TablesCoherent(rows: seq<Row>, direct: map<string, string>, peeled: map<string, string>)
    requires Table(rows, false, direct) && Table(rows, true, peeled)
    ensures Coherent(rows) <==> peeled.Keys <= direct.Keys
  {
    hide Gives;
    if peeled.Keys <= direct.Keys {
      forall tag, x | Gives(rows, true, tag, x) ensures exists y :: Gives(rows, false, tag, y) {
        assert Gives(rows, false, tag, direct[tag]);
      }
    } else {
      var tag :| tag in peeled && tag !in direct;
      assert Gives(rows, true, tag, peeled[tag]);
    }
  }

  lemma TableShows(rows: seq<Row>, direct: map<string, string>, peeled: map<string, string>)
    requires Table(rows, false, direct) && Table(rows, true, peeled)
    ensures forall tag :: tag in direct <==> exists sha :: Gives(rows, false, tag, sha)
    ensures forall tag :: tag in direct ==> Gives(rows, false, tag, direct[tag])
    ensures forall tag :: tag in peeled ==> Gives(rows, true, tag, peeled[tag])
    ensures forall tag, sha :: tag !in peeled ==> !Gives(rows, true, tag, sha)
  {
    hide Gives;
  }

  // --------------------------------------------------------------------
  // Branch mode on a checkout

  datatype Move = MoveTo(sha: string) | Stay | Refuse

  /** Only onto a tip that the current commit is a strict ancestor of; what Git could not answer
      is None and permits nothing. */
  function BranchDrift(fetched: bool, current: Option<string>, target: Option<string>,
                       isAncestor: (string, string) -> Option<bool>): (d: Move)
    ensures d.MoveTo? <==>
      fetched && current.Some? && target.Some? && current != target
      && isAncestor(current.value, target.value) == Some(true)
    ensures d.MoveTo? ==> target == Some(d.sha)
    ensures d.Stay? <==>
      && fetched && current.Some? && target.Some?
      && (current == target || (isAncestor(current.value, target.value) == Some(false)
                                && isAncestor(target.value, current.value) == Some(true)))
  {
    if !fetched || current.None? || target.None? then Refuse
    else if current == target then Stay
    else
      var forward := isAncestor(current.value, target.value);
      if forward.None? then Refuse
      else if !forward.value then
        if isAncestor(target.value, current.value) == Some(true) then Stay else Refuse
      else MoveTo(target.value)
  }

  /** One decision on a branch, with what Git answered for it. */
  datatype Decided = Decided(
    fetched: bool, current: string, target: Option<string>, isAncestor: (string, string) -> Option<bool>)

  ghost function Drift(d: Decided): Move {
    BranchDrift(d.fetched, Some(d.current), d.target, d.isAncestor)
  }

  /** Git's ancestry orders commits, and its answers are right where there is one. */
  ghost predicate Ancestry(older: (string, string) -> bool) {
    && (forall x, y, z :: older(x, y) && older(y, z) ==> older(x, z))
    && (forall x, y :: older(x, y) && older(y, x) ==> x == y)
  }

  ghost predicate Truthful(d: Decided, older: (string, string) -> bool) {
    forall x, y :: d.isAncestor(x, y) == Some(true) ==> older(x, y)
  }

  /** Each decision was to move, and the checkout was where it moved to when the next was taken. */
  ghost predicate MoveHistory(h: seq<Decided>, older: (string, string) -> bool) {
    && (forall i :: 0 <= i < |h| ==> Drift(h[i]).MoveTo? && Truthful(h[i], older))
    && (forall i :: 0 < i < |h| ==> h[i].current == Drift(h[i - 1]).sha)
  }

  lemma MoveClimbs(d: Decided, older: (string, string) -> bool)
    requires Drift(d).MoveTo? && Truthful(d, older)
    ensures older(d.current, Drift(d).sha) && d.current != Drift(d).sha
  {
  }

  /** Any sequence of branch moves goes strictly down the ancestry: each commit is a descendant of
      every earlier one, so none is ever come back to. */
  lemma {:induction false} MovesDescend(h: seq<Decided>, older: (string, string) -> bool, i: nat, j: nat)
    requires Ancestry(older) && MoveHistory(h, older) && i <= j < |h|
    ensures older(h[i].current, Drift(h[j]).sha) && h[i].current != Drift(h[j]).sha
    ensures i < j ==> older(h[i].current, h[j].current) && h[i].current != h[j].current
    decreases j
  {
    hide BranchDrift, Drift, Truthful;
    MoveClimbs(h[j], older);
    if i < j {
      MovesDescend(h, older, i, j - 1);
      assert h[j].current == Drift(h[j - 1]).sha;
    }
  }
}
