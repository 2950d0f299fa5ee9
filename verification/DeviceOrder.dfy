/**
 internal/server/store.go: the devices table and its sort_order column. The table is meant to
 behave as an ordered list of device ids; sort_order and ORDER BY sort_order,id implement it.
 */
module DeviceOrder {
  import opened Prelude
  import opened Listings

  /** hashToken, as an injective function of the token. */
  datatype Hash = Hash(token: string)

  /** A row of the devices table; the primary key is the map key. */
  datatype Row = Row(name: string, tokenHash: Hash, lastSeen: int, info: string, cards: seq<string>, sortOrder: int)

  type Table = map<string, Row>

  // ------------------------------------------------------------------ ordering

  /** SQLite compares text byte by byte. */
  predicate Less(a: string, b: string) {
    if b == [] then false
    else if a == [] then true
    else a[0] < b[0] || (a[0] == b[0] && Less(a[1..], b[1..]))
  }

  lemma {:induction false} LessIsTotal(a: string, b: string)
    ensures !Less(a, a)
    ensures a == b || Less(a, b) || Less(b, a)
    ensures !(Less(a, b) && Less(b, a))
  {
    if a != [] {
      if b != [] {
        LessIsTotal(a[1..], b[1..]);
        assert a == [a[0]] + a[1..] && b == [b[0]] + b[1..];
      } else {
        LessIsTotal(a[1..], []);
      }
    }
  }

  lemma {:induction false} LessIsTransitive(a: string, b: string, c: string)
    requires Less(a, b) && Less(b, c)
    ensures Less(a, c)
  {
    if a != [] && a[0] == b[0] && b[0] == c[0] {
      LessIsTransitive(a[1..], b[1..], c[1..]);
    }
  }

  /** ORDER BY sort_order, id */
  predicate Before(t: Table, a: string, b: string)
    requires a in t && b in t
  {
    t[a].sortOrder < t[b].sortOrder || (t[a].sortOrder == t[b].sortOrder && Less(a, b))
  }

  /** ORDER BY name, id */
  predicate NamedBefore(t: Table, a: string, b: string)
    requires a in t && b in t
  {
    Less(t[a].name, t[b].name) || (t[a].name == t[b].name && Less(a, b))
  }

  ghost function ByOrder(t: Table): (string, string) -> bool {
    (a, b) => a in t && b in t && Before(t, a, b)
  }

  ghost function ByName(t: Table): (string, string) -> bool {
    (a, b) => a in t && b in t && NamedBefore(t, a, b)
  }

  lemma OrdersAreTotal(t: Table)
    ensures Total(t.Keys, ByOrder(t)) && Total(t.Keys, ByName(t))
  {
    forall a, b | a in t && b in t
      ensures !ByOrder(t)(a, a) && !ByName(t)(a, a)
      ensures a != b ==> ByOrder(t)(a, b) || ByOrder(t)(b, a)
      ensures a != b ==> ByName(t)(a, b) || ByName(t)(b, a)
    {
      LessIsTotal(a, b);
      LessIsTotal(t[a].name, t[b].name);
    }
    forall a, b, c | a in t && b in t && c in t
      ensures ByOrder(t)(a, b) && ByOrder(t)(b, c) ==> ByOrder(t)(a, c)
      ensures ByName(t)(a, b) && ByName(t)(b, c) ==> ByName(t)(a, c)
    {
      if Less(a, b) && Less(b, c) {
        LessIsTransitive(a, b, c);
      }
      if Less(t[a].name, t[b].name) && Less(t[b].name, t[c].name) {
        LessIsTransitive(t[a].name, t[b].name, t[c].name);
      }
    }
  }

  /** List(): the device ids as the query returns them. */
  ghost function List(t: Table): (l: seq<string>)
    ensures Elements(l) == t.Keys
  {
    OrdersAreTotal(t);
    Listing(t.Keys, ByOrder(t))
  }

  /** A listing is recognised by its elements and its increasing positions. */
  lemma ListIs(t: Table, l: seq<string>)
    requires Elements(l) == t.Keys
    requires forall i | 0 <= i < |l| :: l[i] in t
    requires forall i, j | 0 <= i < j < |l| :: Before(t, l[i], l[j])
    ensures List(t) == l
  {
    OrdersAreTotal(t);
    ListingIsUnique(List(t), l, t.Keys, ByOrder(t));
  }

  lemma ListIsSorted(t: Table)
    ensures forall i | 0 <= i < |List(t)| :: List(t)[i] in t
    ensures forall i, j | 0 <= i < j < |List(t)| :: Before(t, List(t)[i], List(t)[j]) && List(t)[i] != List(t)[j]
  {
    OrdersAreTotal(t);
    var l := List(t);
    assert forall i | 0 <= i < |l| :: l[i] in Elements(l);
    forall i, j | 0 <= i < j < |l|
      ensures Before(t, l[i], l[j]) && l[i] != l[j]
    {
      assert ByOrder(t)(l[i], l[j]);
      assert !ByOrder(t)(l[i], l[i]);
    }
  }

  // ---------------------------------------------------------------- operations

  /** SELECT COALESCE(MAX(sort_order),-1)+1 FROM devices */
  ghost predicate IsNext(t: Table, n: int) {
    && (forall id | id in t :: t[id].sortOrder < n)
    && (if t == map[] then n == 0 else exists id :: id in t && t[id].sortOrder == n - 1)
  }

  lemma {:induction false} NextExists(t: Table) returns (n: int)
    ensures IsNext(t, n)
    decreases |t|
  {
    if t == map[] {
      n := 0;
    } else {
      var id :| id in t;
      var rest := t - {id};
      assert t.Keys == rest.Keys + {id};
      var m := NextExists(rest);
      n := if rest == map[] || t[id].sortOrder >= m then t[id].sortOrder + 1 else m;
      assert n == t[id].sortOrder + 1 || exists x :: x in rest && rest[x].sortOrder == n - 1;
    }
  }

  ghost function NextOrder(t: Table): (n: int)
    ensures IsNext(t, n)
  {
    assert exists n :: IsNext(t, n) by {
      var n := NextExists(t);
    }
    var n :| IsNext(t, n);
    n
  }

  function IndexOf(ids: seq<string>, id: string): (i: nat)
    requires id in ids
    ensures i < |ids| && ids[i] == id
  {
    if ids[0] == id then 0 else 1 + IndexOf(ids[1..], id)
  }

  datatype Op =
    | Put(id: string, row: Row) | Enroll(id: string, row: Row)
    | Heartbeat(id: string, seen: int, info: string) | Rename(id: string, name: string)
    | SetCards(id: string, cards: seq<string>) | Delete(id: string) | Reorder(ids: seq<string>)

  ghost function Inserted(t: Table, id: string, row: Row): Table {
    t[id := row.(sortOrder := NextOrder(t))]
  }

  /** ReorderDevices' two checks on its argument. */
  predicate Accepts(existing: set<string>, ids: seq<string>) {
    && |ids| == |existing|
    && (forall i | 0 <= i < |ids| :: ids[i] != "" && ids[i] in existing)
    && (forall i, j | 0 <= i < j < |ids| :: ids[i] != ids[j])
  }

  ghost function Apply(t: Table, op: Op): Table {
    match op
    case Put(id, row) =>
      if id == "" then t
      else if id in t then
        t[id := t[id].(name := row.name, tokenHash := row.tokenHash, lastSeen := row.lastSeen, info := row.info)]
      else Inserted(t, id, row)
    case Enroll(id, row) => if id == "" || id in t then t else Inserted(t, id, row)
    case Heartbeat(id, seen, info) => if id in t then t[id := t[id].(lastSeen := seen, info := info)] else t
    case Rename(id, name) => if id in t then t[id := t[id].(name := name)] else t
    case SetCards(id, cards) => if id in t then t[id := t[id].(cards := cards)] else t
    case Delete(id) => t - {id}
    case Reorder(ids) =>
      if Accepts(t.Keys, ids) then map id | id in t :: t[id].(sortOrder := if id in ids then IndexOf(ids, id) else 0)
      else t
  }

  /** What the table is meant to be: an ordered list without repetitions. */
  function Without(l: seq<string>, id: string): seq<string> {
    if l == [] then [] else (if l[0] == id then [] else [l[0]]) + Without(l[1..], id)
  }

  function ApplyToList(l: seq<string>, op: Op): seq<string> {
    match op
    case Put(id, _) => if id == "" || id in l then l else l + [id]
    case Enroll(id, _) => if id == "" || id in l then l else l + [id]
    case Delete(id) => Without(l, id)
    case Reorder(ids) => if multiset(ids) == multiset(l) then ids else l
    case _ => l
  }

  ghost function After(t: Table, ops: seq<Op>): Table {
    if ops == [] then t else Apply(After(t, ops[..|ops| - 1]), ops[|ops| - 1])
  }

  function ListAfter(l: seq<string>, ops: seq<Op>): seq<string> {
    if ops == [] then l else ApplyToList(ListAfter(l, ops[..|ops| - 1]), ops[|ops| - 1])
  }

  // ---------------------------------------------------------------- refinement

  /** No two devices share a sort_order, and no device has the empty id. */
  predicate Sound(t: Table) {
    "" !in t && forall a, b | a in t && b in t && a != b :: t[a].sortOrder != t[b].sortOrder
  }

  lemma InsertAppends(t: Table, id: string, row: Row)
    requires Sound(t) && id !in t && id != ""
    ensures Sound(Inserted(t, id, row)) && List(Inserted(t, id, row)) == List(t) + [id]
  {
    var u := Inserted(t, id, row);
    var l := List(t) + [id];
    ListIsSorted(t);
    assert Elements(l) == u.Keys;
    ListIs(u, l);
  }

  /** Rows may change everywhere but in sort_order. */
  lemma SameOrderSameList(t: Table, u: Table)
    requires u.Keys == t.Keys && forall id | id in t :: u[id].sortOrder == t[id].sortOrder
    ensures List(u) == List(t)
  {
    ListIsSorted(t);
    ListIs(u, List(t));
  }

  lemma {:induction false} WithoutIs(l: seq<string>, id: string)
    ensures Elements(Without(l, id)) == Elements(l) - {id}
    ensures |Without(l, id)| <= |l|
  {
    if l != [] {
      WithoutIs(l[1..], id);
      var rest := Without(l[1..], id);
      assert Elements(l) == {l[0]} + Elements(l[1..]);
      assert Elements(Without(l, id)) == (if l[0] == id then {} else {l[0]}) + Elements(rest);
    }
  }

  lemma {:induction false} WithoutKeepsOrder(t: Table, l: seq<string>, id: string)
    requires forall i | 0 <= i < |l| :: l[i] in t
    requires forall i, j | 0 <= i < j < |l| :: Before(t, l[i], l[j])
    ensures forall i | 0 <= i < |Without(l, id)| :: Without(l, id)[i] in t
    ensures forall i, j | 0 <= i < j < |Without(l, id)| :: Before(t, Without(l, id)[i], Without(l, id)[j])
  {
    if l != [] {
      WithoutKeepsOrder(t, l[1..], id);
      WithoutIs(l[1..], id);
      var w := Without(l[1..], id);
      forall i | 0 <= i < |w|
        ensures w[i] in l[1..]
      {
        assert w[i] in Elements(w);
      }
    }
  }

  lemma DeleteRemoves(t: Table, id: string)
    requires Sound(t)
    ensures Sound(t - {id}) && List(t - {id}) == Without(List(t), id)
  {
    ListIsSorted(t);
    var w := Without(List(t), id);
    WithoutIs(List(t), id);
    WithoutKeepsOrder(t, List(t), id);
    assert forall i | 0 <= i < |w| :: w[i] in Elements(w);
    ListIs(t - {id}, w);
  }

  lemma {:induction false} DistinctLength(l: seq<string>)
    requires forall i, j | 0 <= i < j < |l| :: l[i] != l[j]
    ensures |Elements(l)| == |l|
    ensures forall x | x in l :: multiset(l)[x] == 1
  {
    if l != [] {
      DistinctLength(l[1..]);
      assert l == [l[0]] + l[1..];
      assert Elements(l) == {l[0]} + Elements(l[1..]);
    }
  }

  /** Pigeonhole: what the two checks accept is a permutation. */
  lemma AcceptedIsPermutation(t: Table, ids: seq<string>)
    requires Sound(t) && Accepts(t.Keys, ids)
    ensures multiset(ids) == multiset(List(t)) && Elements(ids) == t.Keys
  {
    var l := List(t);
    ListIsSorted(t);
    DistinctLength(l);
    DistinctLength(ids);
    assert Elements(ids) <= t.Keys;
    SubsetOfSameSize(Elements(ids), t.Keys);
    forall x
      ensures multiset(ids)[x] == multiset(l)[x]
    {
      assert x in ids <==> x in Elements(ids);
      assert x in l <==> x in Elements(l);
    }
  }

  lemma PermutationIsAccepted(t: Table, ids: seq<string>)
    requires Sound(t) && multiset(ids) == multiset(List(t))
    ensures Accepts(t.Keys, ids)
  {
    var l := List(t);
    ListIsSorted(t);
    DistinctLength(l);
    assert |ids| == |multiset(ids)| == |multiset(l)| == |l|;
    forall i | 0 <= i < |ids|
      ensures ids[i] in t
    {
      assert ids[i] in multiset(ids);
      assert ids[i] in Elements(l);
    }
    DistinctFromMultiset(ids);
  }

  /** The two checks accept exactly the permutations of the existing ids. */
  lemma AcceptsPermutations(t: Table, ids: seq<string>)
    requires Sound(t)
    ensures Accepts(t.Keys, ids) <==> multiset(ids) == multiset(List(t))
    ensures Accepts(t.Keys, ids) ==> Elements(ids) == t.Keys
  {
    if Accepts(t.Keys, ids) {
      AcceptedIsPermutation(t, ids);
    }
    if multiset(ids) == multiset(List(t)) {
      PermutationIsAccepted(t, ids);
    }
  }

  lemma SubsetOfSameSize(a: set<string>, b: set<string>)
    requires a <= b && |a| == |b|
    ensures a == b
  {
    assert |b - a| == 0;
  }

  lemma DistinctFromMultiset(l: seq<string>)
    requires forall x | x in l :: multiset(l)[x] == 1
    ensures forall i, j | 0 <= i < j < |l| :: l[i] != l[j]
  {
    forall i, j | 0 <= i < j < |l|
      ensures l[i] != l[j]
    {
      assert l == l[..j] + l[j..];
      assert multiset(l) == multiset(l[..j]) + multiset(l[j..]);
      assert l[..j][i] == l[i] && l[i] in l[..j] && l[j] in l[j..];
      assert multiset(l[..j])[l[i]] >= 1 && multiset(l[j..])[l[j]] >= 1;
      assert multiset(l)[l[j]] == 1;
    }
  }

  lemma {:induction false} IndexIsPosition(ids: seq<string>, i: nat)
    requires i < |ids| && forall a, b | 0 <= a < b < |ids| :: ids[a] != ids[b]
    ensures IndexOf(ids, ids[i]) == i
  {
    if i > 0 {
      IndexIsPosition(ids[1..], i - 1);
    }
  }

  lemma ReorderLists(t: Table, ids: seq<string>)
    requires Sound(t) && Accepts(t.Keys, ids)
    ensures Sound(Apply(t, Reorder(ids))) && List(Apply(t, Reorder(ids))) == ids
  {
    var u := Apply(t, Reorder(ids));
    AcceptsPermutations(t, ids);
    forall i | 0 <= i < |ids|
      ensures ids[i] in u && u[ids[i]].sortOrder == i
    {
      IndexIsPosition(ids, i);
    }
    NumberedTable(u, ids);
  }

  lemma ApplyRefines(t: Table, op: Op)
    requires Sound(t)
    ensures Sound(Apply(t, op)) && List(Apply(t, op)) == ApplyToList(List(t), op)
  {
    assert forall id :: id in List(t) <==> id in Elements(List(t));
    match op
    case Put(id, row) =>
      if id != "" && id !in t {
        InsertAppends(t, id, row);
      } else {
        SameOrderSameList(t, Apply(t, op));
      }
    case Enroll(id, row) =>
      if id != "" && id !in t {
        InsertAppends(t, id, row);
      }
    case Delete(id) => DeleteRemoves(t, id);
    case Reorder(ids) =>
      AcceptsPermutations(t, ids);
      if Accepts(t.Keys, ids) {
        ReorderLists(t, ids);
      }
    case _ => SameOrderSameList(t, Apply(t, op));
  }

  /**
   The table refines an ordered list of ids over every sequence of operations: enrolment and a new
   Put append, Delete removes keeping the relative order, Reorder installs its argument exactly when
   that is a permutation of the existing ids, and nothing else moves a device.
   */
  lemma {:induction false} TableRefinesList(t: Table, ops: seq<Op>)
    requires Sound(t)
    ensures Sound(After(t, ops)) && List(After(t, ops)) == ListAfter(List(t), ops)
  {
    if ops != [] {
      TableRefinesList(t, ops[..|ops| - 1]);
      ApplyRefines(After(t, ops[..|ops| - 1]), ops[|ops| - 1]);
    }
  }

  // ----------------------------------------------------------------- migration

  /** The first migration: sort_order becomes the number of rows up to this one by name and id, less one. */
  ghost function Migrated(t: Table): Table {
    map id | id in t :: t[id].(sortOrder := |NotAfter(t, id)| - 1)
  }

  ghost function NotAfter(t: Table, id: string): set<string>
    requires id in t
  {
    set prior | prior in t && (prior == id || NamedBefore(t, prior, id))
  }

  lemma MigratedRank(t: Table, before: seq<string>, i: nat)
    requires Lists(before, t.Keys, ByName(t)) && i < |before|
    ensures before[i] in t && Migrated(t)[before[i]].sortOrder == i
  {
    OrdersAreTotal(t);
    assert before[i] in Elements(before);
    RankIsPosition(before, t.Keys, ByName(t), i, NotAfter(t, before[i]));
  }

  /**
   The migration gives n devices the sort orders 0 .. n-1, each exactly once, and listing by
   (sort_order, id) afterwards is listing by (name, id) before.
   */
  lemma {:induction false} MigrationKeepsOrder(t: Table)
    ensures Total(t.Keys, ByName(t))
    ensures var before := Listing(t.Keys, ByName(t)); var u := Migrated(t);
      && u.Keys == t.Keys && |before| == |t|
      && (forall i | 0 <= i < |before| :: before[i] in u && u[before[i]].sortOrder == i)
      && List(u) == before
      && ("" !in t ==> Sound(u))
  {
    OrdersAreTotal(t);
    var before := Listing(t.Keys, ByName(t));
    ListsLength(before, t.Keys, ByName(t));
    forall i | 0 <= i < |before|
      ensures before[i] in t && Migrated(t)[before[i]].sortOrder == i
    {
      MigratedRank(t, before, i);
    }
    NumberedTable(Migrated(t), before);
  }

  /** A table numbered along a list is listed as that list. */
  lemma NumberedTable(u: Table, l: seq<string>)
    requires Elements(l) == u.Keys
    requires forall i | 0 <= i < |l| :: l[i] in u && u[l[i]].sortOrder == i
    ensures List(u) == l
    ensures "" !in u ==> Sound(u)
  {
    ListIs(u, l);
    forall a, b | a in u && b in u && a != b
      ensures u[a].sortOrder != u[b].sortOrder
    {
      assert a in Elements(l) && b in Elements(l);
    }
  }

  // ------------------------------------------------------------- the store itself

  datatype ReorderError = WrongLength | UnknownOrDuplicate | DatabaseError

  /** The devices table behind the store's methods. */
  class DeviceStore {
    var devices: Table

    constructor ()
      ensures devices == map[]
    {
      devices := map[];
    }

    method NextSortOrder() returns (n: int)
      ensures IsNext(devices, n)
    {
      var seen: set<string>, rest := {}, devices.Keys;
      n := 0;
      while rest != {}
        invariant seen + rest == devices.Keys
        invariant forall id | id in seen :: devices[id].sortOrder < n
        invariant if seen == {} then n == 0 else exists id :: id in seen && devices[id].sortOrder == n - 1
        decreases rest
      {
        var id :| id in rest;
        if seen == {} || devices[id].sortOrder >= n {
          n := devices[id].sortOrder + 1;
        }
        seen, rest := seen + {id}, rest - {id};
      }
    }

    /** INSERT INTO devices; the primary key refuses an id that is there already. */
    method Insert(id: string, row: Row) returns (inserted: bool)
      requires id != ""
      modifies this
      ensures devices == Apply(old(devices), Op.Enroll(id, row))
      ensures inserted <==> id !in old(devices)
    {
      if id in devices {
        return false;
      }
      var n := NextSortOrder();
      NextIsUnique(devices, n);
      devices := devices[id := row.(sortOrder := n)];
      return true;
    }

    method Put(id: string, row: Row) returns (ok: bool)
      modifies this
      ensures devices == Apply(old(devices), Op.Put(id, row))
      ensures ok <==> id != ""
    {
      if id == "" {
        return false;
      }
      if id in devices {
        var prior := devices[id];
        devices := devices[id := prior.(name := row.name, tokenHash := row.tokenHash, lastSeen := row.lastSeen, info := row.info)];
      } else {
        var inserted := Insert(id, row);
      }
      return true;
    }

    /** The two checks; `seen` is the source's map of the ids met so far. */
    method CheckOrder(ids: seq<string>) returns (err: Option<ReorderError>)
      ensures err.None? <==> Accepts(devices.Keys, ids)
    {
      var existing := devices.Keys;
      if |ids| != |existing| {
        return Some(WrongLength);
      }
      var seen: set<string> := {};
      for k := 0 to |ids|
        invariant seen == Elements(ids[..k])
        invariant forall i | 0 <= i < k :: ids[i] != "" && ids[i] in existing
        invariant forall i, j | 0 <= i < j < k :: ids[i] != ids[j]
      {
        var id := ids[k];
        if id == "" || id in seen || id !in existing {
          return Some(UnknownOrDuplicate);
        }
        assert ids[..k + 1] == ids[..k] + [id];
        seen := seen + {id};
      }
      return None;
    }

    /** The updates of one transaction; the one at `failsAt` fails, if there is one. */
    method WriteOrder(ids: seq<string>, failsAt: Option<nat>) returns (ok: bool)
      requires Accepts(devices.Keys, ids)
      modifies this
      ensures ok <==> failsAt.None? || failsAt.value >= |ids|
      ensures ok ==> devices == Apply(old(devices), Op.Reorder(ids))
    {
      ghost var before := devices;
      for index := 0 to |ids|
        invariant failsAt.Some? ==> index <= failsAt.value
        invariant devices.Keys == before.Keys
        invariant forall i | 0 <= i < index :: devices[ids[i]] == before[ids[i]].(sortOrder := i)
        invariant forall id | id in before && id !in ids[..index] :: devices[id] == before[id]
      {
        if failsAt == Some(index) {
          return false;
        }
        var id := ids[index];
        assert ids[..index + 1] == ids[..index] + [id];
        assert id !in ids[..index];
        devices := devices[id := devices[id].(sortOrder := index)];
      }
      Renumbered(before, devices, ids);
      return true;
    }

    /** `begun` covers the calls before the first update; whatever fails, the transaction is rolled back. */
    method Reorder(ids: seq<string>, begun: bool, failsAt: Option<nat>, commits: bool) returns (err: Option<ReorderError>)
      modifies this
      ensures err.None? <==>
        begun && Accepts(old(devices.Keys), ids) && (failsAt.None? || failsAt.value >= |ids|) && commits
      ensures devices == if err.None? then Apply(old(devices), Op.Reorder(ids)) else old(devices)
    {
      if !begun {
        return Some(DatabaseError);
      }
      err := CheckOrder(ids);
      if err.None? {
        var saved := devices;
        var written := WriteOrder(ids, failsAt);
        if !written || !commits {
          devices := saved;
          return Some(DatabaseError);
        }
      }
    }

    method Update(op: Op) returns (found: bool)
      requires op.Heartbeat? || op.Rename? || op.SetCards? || op.Delete?
      modifies this
      ensures devices == Apply(old(devices), op)
      ensures found <==> op.id in old(devices)
    {
      found := op.id in devices;
      if op.Delete? {
        devices := devices - {op.id};
      } else if found {
        var row := devices[op.id];
        devices := devices[op.id :=
          match op
          case Heartbeat(_, seen, info) => row.(lastSeen := seen, info := info)
          case Rename(_, name) => row.(name := name)
          case SetCards(_, cards) => row.(cards := cards)
          case _ => row];
      }
    }
  }

  lemma Renumbered(t: Table, u: Table, ids: seq<string>)
    requires Accepts(t.Keys, ids) && u.Keys == t.Keys
    requires forall i | 0 <= i < |ids| :: u[ids[i]] == t[ids[i]].(sortOrder := i)
    ensures u == Apply(t, Reorder(ids))
  {
    DistinctLength(ids);
    SubsetOfSameSize(Elements(ids), t.Keys);
    forall id | id in t
      ensures id in ids && u[id] == t[id].(sortOrder := IndexOf(ids, id))
    {
      assert id in Elements(ids);
      var i := IndexOf(ids, id);
      assert ids[i] == id;
    }
  }

  lemma NextIsUnique(t: Table, n: int)
    requires IsNext(t, n)
    ensures n == NextOrder(t)
  {
    if t != map[] {
      var a :| a in t && t[a].sortOrder == n - 1;
      var b :| b in t && t[b].sortOrder == NextOrder(t) - 1;
    }
  }
}
