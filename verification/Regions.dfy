/** Servers grouped by region, and the order in which a failed start or switch falls back through them. */
module Regions {
  import opened Support

  datatype Server = Server(id: string, load: Option<int>)

  datatype Region = Region(key: string, servers: seq<Server>)

  const CANDIDATE_LIMIT := 6

  predicate IsDigit(c: char) {
    '0' <= c <= '9'
  }

  function DigitsFrom(id: string): (at: nat)
    ensures at <= |id| && forall i :: at <= i < |id| ==> IsDigit(id[i])
    ensures at > 0 ==> !IsDigit(id[at - 1])
  {
    if id == "" || !IsDigit(id[|id| - 1]) then |id| else DigitsFrom(id[..|id| - 1])
  }

  /** A trailing dash and number are what tells a region's servers apart. */
  function Key(id: string): string {
    var at := DigitsFrom(id);
    if at < |id| && at > 0 && id[at - 1] == '-' then id[..at - 1] else id
  }

  predicate AllDigits(s: string) {
    s != "" && forall i :: 0 <= i < |s| ==> IsDigit(s[i])
  }

  /** A server's number is what its key leaves out, and a key leaves out nothing else. */
  lemma KeyDropsTheNumber(region: string, number: string)
    requires AllDigits(number)
    ensures Key(region + "-" + number) == region
  {
    var id := region + "-" + number;
    assert id[|region|] == '-' && forall i :: |region| < i < |id| ==> id[i] == number[i - |region| - 1];
    var at := DigitsFrom(id);
    assert at == |region| + 1;
    assert id[..|region|] == region;
  }

  lemma KeyDropsNothingElse(id: string)
    ensures Key(id) == id || exists number :: AllDigits(number) && id == Key(id) + "-" + number
  {
    if Key(id) != id {
      var at := DigitsFrom(id);
      var number := id[at..];
      assert AllDigits(number) && id == id[..at - 1] + "-" + number;
    }
  }

  function KeyOf(s: Server): string {
    Key(s.id)
  }

  // ---- Grouping ----

  function OfKey(servers: seq<Server>, key: string): seq<Server> {
    if servers == [] then []
    else
      var before, last := servers[..|servers| - 1], servers[|servers| - 1];
      if KeyOf(last) == key then OfKey(before, key) + [last] else OfKey(before, key)
  }

  /** The regions' keys in hub order. */
  function Keys(servers: seq<Server>): (keys: seq<string>)
    ensures Distinct(keys)
    ensures forall s :: s in servers ==> KeyOf(s) in keys
    ensures forall k :: k in keys ==> OfKey(servers, k) != []
  {
    if servers == [] then []
    else
      var before := servers[..|servers| - 1];
      var keys := Keys(before);
      var key := KeyOf(servers[|servers| - 1]);
      assert forall s :: s in servers ==> s in before || s == servers[|servers| - 1];
      if key in keys then keys else keys + [key]
  }

  function Grouped(servers: seq<Server>): (regions: seq<Region>)
    ensures |regions| == |Keys(servers)|
    ensures forall i :: 0 <= i < |regions| ==> regions[i] == Region(Keys(servers)[i], OfKey(servers, Keys(servers)[i]))
  {
    var keys := Keys(servers);
    seq(|keys|, i requires 0 <= i < |keys| => Region(keys[i], OfKey(servers, keys[i])))
  }

  lemma OneMore(servers: seq<Server>, i: nat)
    requires i < |servers|
    ensures var key := KeyOf(servers[i]);
      && Keys(servers[..i + 1]) == (if key in Keys(servers[..i]) then Keys(servers[..i]) else Keys(servers[..i]) + [key])
      && (forall k :: OfKey(servers[..i + 1], k) == if k == key then OfKey(servers[..i], k) + [servers[i]] else OfKey(servers[..i], k))
  {
    assert servers[..i + 1][..i] == servers[..i];
  }

  lemma NewKeyIsEmpty(servers: seq<Server>, key: string)
    ensures key !in Keys(servers) ==> OfKey(servers, key) == []
  {
  }

  /** One server joins its region, or starts it. */
  method Add(order: seq<string>, byKey: map<string, seq<Server>>, key: string, s: Server)
      returns (order': seq<string>, byKey': map<string, seq<Server>>)
    ensures order' == if key in byKey then order else order + [key]
    ensures byKey' == byKey[key := (if key in byKey then byKey[key] else []) + [s]]
  {
    order', byKey' := order, byKey;
    if key !in byKey {
      order' := order' + [key];
    }
    byKey' := byKey'[key := (if key in byKey' then byKey'[key] else []) + [s]];
  }

  method Group(servers: seq<Server>) returns (regions: seq<Region>)
    ensures regions == Grouped(servers)
  {
    assert Keys(servers[..0]) == [];
    hide OfKey, KeyOf, Keys, Grouped;
    var order: seq<string>, byKey: map<string, seq<Server>> := [], map[];
    for i := 0 to |servers|
      invariant order == Keys(servers[..i])
      invariant forall k :: (k in byKey <==> k in order) && (k in byKey ==> byKey[k] == OfKey(servers[..i], k))
    {
      var key := KeyOf(servers[i]);
      OneMore(servers, i);
      NewKeyIsEmpty(servers[..i], key);
      order, byKey := Add(order, byKey, key, servers[i]);
    }
    assert servers[..|servers|] == servers;
    regions := seq(|order|, i requires 0 <= i < |order| => Region(order[i], if order[i] in byKey then byKey[order[i]] else []));
  }

  // ---- By load ----

  /** Missing load counts as fully loaded. */
  function Load(s: Server): int {
    if s.load.Some? then s.load.value else 100
  }

  function Insert(s: Server, nodes: seq<Server>): seq<Server> {
    if nodes == [] || Load(s) <= Load(nodes[0]) then [s] + nodes else [nodes[0]] + Insert(s, nodes[1..])
  }

  /** Lightest first; nodes reporting the same load keep their hub order. */
  function ByLoad(nodes: seq<Server>): seq<Server> {
    if nodes == [] then [] else Insert(nodes[0], ByLoad(nodes[1..]))
  }

  ghost predicate Ascending(nodes: seq<Server>) {
    forall i, j :: 0 <= i < j < |nodes| ==> Load(nodes[i]) <= Load(nodes[j])
  }

  function WithLoad(nodes: seq<Server>, load: int): seq<Server> {
    if nodes == [] then []
    else if Load(nodes[0]) == load then [nodes[0]] + WithLoad(nodes[1..], load)
    else WithLoad(nodes[1..], load)
  }

  lemma {:induction false} InsertMembers(s: Server, nodes: seq<Server>)
    ensures multiset(Insert(s, nodes)) == multiset{s} + multiset(nodes)
    decreases |nodes|
  {
    if nodes != [] && Load(s) > Load(nodes[0]) {
      InsertMembers(s, nodes[1..]);
      assert nodes == [nodes[0]] + nodes[1..];
    }
  }

  lemma {:induction false} InsertAscends(s: Server, nodes: seq<Server>)
    requires Ascending(nodes)
    ensures Ascending(Insert(s, nodes))
    decreases |nodes|
  {
    if nodes != [] && Load(s) > Load(nodes[0]) {
      InsertAscends(s, nodes[1..]);
      InsertMembers(s, nodes[1..]);
      LighterFirst(nodes[0], Insert(s, nodes[1..]), s, nodes[1..]);
    }
  }

  lemma LighterFirst(head: Server, rest: seq<Server>, s: Server, others: seq<Server>)
    requires Ascending(rest) && multiset(rest) == multiset{s} + multiset(others)
    requires Load(head) <= Load(s) && forall x :: x in others ==> Load(head) <= Load(x)
    ensures Ascending([head] + rest)
  {
    forall i | 0 <= i < |rest| ensures Load(head) <= Load(rest[i]) {
      assert rest[i] in multiset(rest);
      assert rest[i] == s || rest[i] in others;
    }
  }

  lemma WithLoadFirst(s: Server, nodes: seq<Server>, load: int)
    ensures WithLoad([s] + nodes, load) == if Load(s) == load then [s] + WithLoad(nodes, load) else WithLoad(nodes, load)
  {
    assert ([s] + nodes)[1..] == nodes;
  }

  lemma {:induction false} InsertKeepsOrder(s: Server, nodes: seq<Server>, load: int)
    ensures WithLoad(Insert(s, nodes), load) == WithLoad([s] + nodes, load)
    decreases |nodes|
  {
    WithLoadFirst(s, nodes, load);
    if nodes != [] && Load(s) > Load(nodes[0]) {
      var rest := nodes[1..];
      InsertKeepsOrder(s, rest, load);
      WithLoadFirst(s, rest, load);
      assert nodes == [nodes[0]] + rest;
      WithLoadFirst(nodes[0], rest, load);
      WithLoadFirst(nodes[0], Insert(s, rest), load);
      assert Insert(s, nodes) == [nodes[0]] + Insert(s, rest);
      hide WithLoad, Insert;
    }
  }

  /** A stable sort by load: the loads ascend, and the nodes of each load are the given ones in order. */
  lemma {:induction false} ByLoadIsStable(nodes: seq<Server>, load: int)
    ensures var out := ByLoad(nodes);
      Ascending(out) && multiset(out) == multiset(nodes) && WithLoad(out, load) == WithLoad(nodes, load)
    decreases |nodes|
  {
    if nodes != [] {
      ByLoadIsStable(nodes[1..], load);
      InsertMembers(nodes[0], ByLoad(nodes[1..]));
      InsertAscends(nodes[0], ByLoad(nodes[1..]));
      InsertKeepsOrder(nodes[0], ByLoad(nodes[1..]), load);
      WithLoadFirst(nodes[0], ByLoad(nodes[1..]), load);
      assert nodes == [nodes[0]] + nodes[1..];
    }
  }

  // ---- The order of a retry ----

  function Ids(nodes: seq<Server>): seq<string> {
    if nodes == [] then [] else [nodes[0].id] + Ids(nodes[1..])
  }

  function Flat(regions: seq<Region>): seq<string> {
    if regions == [] then [] else Ids(ByLoad(regions[0].servers)) + Flat(regions[1..])
  }

  predicate HasId(r: Region, id: string) {
    exists s :: s in r.servers && s.id == id
  }

  function FirstIndex(regions: seq<Region>, id: string): (index: Option<nat>)
    ensures index.Some? ==> index.value < |regions| && HasId(regions[index.value], id)
    ensures index.None? ==> forall r :: r in regions ==> !HasId(r, id)
  {
    if regions == [] then None
    else if HasId(regions[0], id) then Some(0)
    else
      var later := FirstIndex(regions[1..], id);
      if later.Some? then Some(later.value + 1) else None
  }

  function Without(ids: seq<string>, id: string): seq<string> {
    if ids == [] then []
    else
      var before, last := ids[..|ids| - 1], ids[|ids| - 1];
      if last == id then Without(before, id) else Without(before, id) + [last]
  }

  /** The chosen node, its siblings by load, then every later region in hub order, wrapping round. */
  function RetryOrder(id: string, servers: seq<Server>): seq<string> {
    var regions := Grouped(servers);
    var index := FirstIndex(regions, id);
    if index.None? then Flat(regions)
    else
      [id] + Without(Ids(ByLoad(regions[index.value].servers)), id)
      + Flat(regions[index.value + 1..] + regions[..index.value])
  }

  /** The ids in `ids` of the region `key`, or of all the others. */
  function Matching(ids: seq<string>, key: string, same: bool): seq<string> {
    if ids == [] then []
    else
      var before, last := ids[..|ids| - 1], ids[|ids| - 1];
      if (Key(last) == key) == same then Matching(before, key, same) + [last] else Matching(before, key, same)
  }

  function FirstPerRegion(ids: seq<string>): seq<string> {
    if ids == [] then []
    else
      var before, last := ids[..|ids| - 1], ids[|ids| - 1];
      if exists x :: x in before && Key(x) == Key(last) then FirstPerRegion(before) else FirstPerRegion(before) + [last]
  }

  function Uncut(id: string, servers: seq<Server>): seq<string> {
    var home := Key(id);
    var order := Without(RetryOrder(id, servers), id);
    [id] + Matching(order, home, true) + FirstPerRegion(Matching(order, home, false))
  }

  function Candidates(id: string, servers: seq<Server>, limit: nat := CANDIDATE_LIMIT): seq<string> {
    var all := Uncut(id, servers);
    if |all| <= limit then all else all[..limit]
  }

  // ---- Counting ids ----

  lemma {:induction false} IdsOfByLoad(nodes: seq<Server>, x: string)
    ensures multiset(Ids(ByLoad(nodes)))[x] == multiset(Ids(nodes))[x]
    decreases |nodes|
  {
    if nodes != [] {
      IdsOfByLoad(nodes[1..], x);
      IdsOfInsert(nodes[0], ByLoad(nodes[1..]), x);
    }
  }

  lemma {:induction false} IdsOfInsert(s: Server, nodes: seq<Server>, x: string)
    ensures multiset(Ids(Insert(s, nodes)))[x] == multiset(Ids(nodes))[x] + if s.id == x then 1 else 0
    decreases |nodes|
  {
    if nodes != [] && Load(s) > Load(nodes[0]) {
      IdsOfInsert(s, nodes[1..], x);
      assert Insert(s, nodes)[1..] == Insert(s, nodes[1..]);
    } else {
      assert ([s] + nodes)[1..] == nodes;
    }
  }

  lemma {:induction false} IdsAppend(a: seq<Server>, b: seq<Server>)
    ensures Ids(a + b) == Ids(a) + Ids(b)
    decreases |a|
  {
    if a == [] {
      assert a + b == b;
    } else {
      assert (a + b)[1..] == a[1..] + b;
      IdsAppend(a[1..], b);
    }
  }

  lemma CountLast(nodes: seq<Server>, last: Server, x: string)
    ensures multiset(Ids(nodes + [last]))[x] == multiset(Ids(nodes))[x] + if last.id == x then 1 else 0
  {
    IdsAppend(nodes, [last]);
    assert Ids([last]) == [last.id];
  }

  lemma {:induction false} IdsOfKey(servers: seq<Server>, x: string, key: string)
    ensures multiset(Ids(OfKey(servers, key)))[x] == if Key(x) == key then multiset(Ids(servers))[x] else 0
    decreases |servers|
  {
    if servers != [] {
      var before, last := servers[..|servers| - 1], servers[|servers| - 1];
      assert servers == before + [last];
      OfKeyLast(servers, key);
      IdsOfKey(before, x, key);
      CountLast(before, last, x);
      CountLast(OfKey(before, key), last, x);
      hide Ids, Key, OfKey;
    }
  }

  lemma OfKeyLast(servers: seq<Server>, key: string)
    requires servers != []
    ensures var before, last := servers[..|servers| - 1], servers[|servers| - 1];
      OfKey(servers, key) == if Key(last.id) == key then OfKey(before, key) + [last] else OfKey(before, key)
  {
  }

  /** Regions of the given list, each key at most once. */
  ghost predicate RegionsOf(regions: seq<Region>, servers: seq<Server>) {
    && (forall i :: 0 <= i < |regions| ==> regions[i].servers == OfKey(servers, regions[i].key) && regions[i].servers != [])
    && (forall i, j :: 0 <= i < j < |regions| ==> regions[i].key != regions[j].key)
  }

  ghost predicate HasKey(regions: seq<Region>, key: string) {
    exists i :: 0 <= i < |regions| && regions[i].key == key
  }

  lemma {:induction false} FlatCounts(regions: seq<Region>, servers: seq<Server>, x: string)
    requires RegionsOf(regions, servers)
    ensures multiset(Flat(regions))[x] == if HasKey(regions, Key(x)) then multiset(Ids(servers))[x] else 0
    decreases |regions|
  {
    if regions != [] {
      hide *;
      var r := regions[0];
      HeadKey(regions);
      TailAreRegions(regions, servers);
      FlatCounts(regions[1..], servers, x);
      IdsOfByLoad(r.servers, x);
      IdsOfKey(servers, x, r.key);
      FlatHead(regions, x);
    }
  }

  lemma FlatHead(regions: seq<Region>, x: string)
    requires regions != []
    ensures multiset(Flat(regions))[x] == multiset(Ids(ByLoad(regions[0].servers)))[x] + multiset(Flat(regions[1..]))[x]
  {
    hide Ids, ByLoad;
  }

  lemma TailAreRegions(regions: seq<Region>, servers: seq<Server>)
    requires regions != [] && RegionsOf(regions, servers)
    ensures RegionsOf(regions[1..], servers) && regions[0].servers == OfKey(servers, regions[0].key)
    ensures !HasKey(regions[1..], regions[0].key)
  {
    hide OfKey;
  }

  lemma HeadKey(regions: seq<Region>)
    requires regions != []
    ensures forall k :: HasKey(regions, k) <==> k == regions[0].key || HasKey(regions[1..], k)
  {
    forall k ensures HasKey(regions, k) <==> k == regions[0].key || HasKey(regions[1..], k) {
      if HasKey(regions, k) {
        var i :| 0 <= i < |regions| && regions[i].key == k;
        assert i > 0 ==> regions[1..][i - 1].key == k;
      }
      if HasKey(regions[1..], k) {
        var i :| 0 <= i < |regions[1..]| && regions[1..][i].key == k;
        assert regions[i + 1].key == k;
      }
    }
  }

  // ---- A retry tries every server once ----

  lemma GroupedAreRegions(servers: seq<Server>)
    ensures RegionsOf(Grouped(servers), servers)
    ensures forall s :: s in servers ==> HasKey(Grouped(servers), KeyOf(s))
    ensures forall x :: Listed(servers, x) ==> HasKey(Grouped(servers), Key(x))
  {
    var regions := Grouped(servers);
    forall s | s in servers ensures HasKey(regions, KeyOf(s)) {
      var i :| 0 <= i < |Keys(servers)| && Keys(servers)[i] == KeyOf(s);
      assert regions[i].key == KeyOf(s);
    }
  }

  /** The regions from the one after `i` round to the one before it. */
  lemma RotatedAreRegions(regions: seq<Region>, servers: seq<Server>, i: nat)
    requires RegionsOf(regions, servers) && i < |regions|
    ensures var later := regions[i + 1..] + regions[..i];
      RegionsOf(later, servers) && forall k :: HasKey(later, k) <==> HasKey(regions, k) && k != regions[i].key
  {
    var later := regions[i + 1..] + regions[..i];
    var n := |regions| - i - 1;
    assert forall j :: 0 <= j < |later| ==> later[j] == regions[if j < n then i + 1 + j else j - n];
    forall k ensures HasKey(later, k) <==> HasKey(regions, k) && k != regions[i].key {
      if HasKey(regions, k) && k != regions[i].key {
        var j :| 0 <= j < |regions| && regions[j].key == k;
        assert later[if j > i then j - i - 1 else n + j].key == k;
      }
    }
  }

  lemma OfKeyHasKey(servers: seq<Server>, key: string, s: Server)
    ensures s in OfKey(servers, key) <==> s in servers && KeyOf(s) == key
  {
    if servers != [] {
      assert servers == servers[..|servers| - 1] + [servers[|servers| - 1]];
    }
  }

  ghost predicate Listed(servers: seq<Server>, id: string) {
    exists s :: s in servers && s.id == id
  }

  /** The region a listed id is found in is its own. */
  lemma FoundInItsRegion(regions: seq<Region>, servers: seq<Server>, id: string)
    requires RegionsOf(regions, servers) && (forall s :: s in servers ==> HasKey(regions, KeyOf(s)))
    ensures var index := FirstIndex(regions, id);
      if Listed(servers, id) then index.Some? && regions[index.value].key == Key(id) else index.None?
  {
    var index := FirstIndex(regions, id);
    if index.Some? {
      var s :| s in regions[index.value].servers && s.id == id;
      OfKeyHasKey(servers, regions[index.value].key, s);
    }
    if Listed(servers, id) {
      var s :| s in servers && s.id == id;
      var i :| 0 <= i < |regions| && regions[i].key == KeyOf(s);
      OfKeyHasKey(servers, regions[i].key, s);
      assert HasId(regions[i], id) && regions[i] in regions;
    }
  }

  lemma {:induction false} WithoutCounts(ids: seq<string>, id: string, x: string)
    ensures multiset(Without(ids, id))[x] == if x == id then 0 else multiset(ids)[x]
    decreases |ids|
  {
    if ids != [] {
      WithoutCounts(ids[..|ids| - 1], id, x);
      assert ids == ids[..|ids| - 1] + [ids[|ids| - 1]];
    }
  }

  lemma {:induction false} CountsAreListed(servers: seq<Server>, x: string)
    ensures multiset(Ids(servers))[x] > 0 <==> Listed(servers, x)
    decreases |servers|
  {
    if servers != [] {
      CountsAreListed(servers[1..], x);
      assert servers == [servers[0]] + servers[1..];
      assert Listed(servers, x) <==> servers[0].id == x || Listed(servers[1..], x);
    }
  }

  lemma {:induction false} DistinctCounts(ids: seq<string>, x: string)
    requires Distinct(ids)
    ensures multiset(ids)[x] <= 1
    decreases |ids|
  {
    if ids != [] {
      var before := ids[..|ids| - 1];
      assert ids == before + [ids[|ids| - 1]];
      DistinctCounts(before, x);
      assert x == ids[|ids| - 1] ==> x !in before;
    }
  }

  /** From a listed server the order starts with it and holds every server's id once; from any other it
      holds them all. */
  lemma RetryOrderIsAPermutation(id: string, servers: seq<Server>, x: string)
    requires Distinct(Ids(servers))
    ensures multiset(RetryOrder(id, servers))[x] == multiset(Ids(servers))[x] <= 1
    ensures Listed(servers, id) ==> RetryOrder(id, servers) != [] && RetryOrder(id, servers)[0] == id
  {
    var regions := Grouped(servers);
    GroupedAreRegions(servers);
    FoundInItsRegion(regions, servers, id);
    CountsAreListed(servers, x);
    DistinctCounts(Ids(servers), x);
    if Listed(servers, id) {
      RetryOrderCounts(id, servers, x);
    } else {
      FlatCounts(regions, servers, x);
      hide FirstIndex, Flat, Grouped, RegionsOf, Ids;
    }
  }

  lemma RetryOrderCounts(id: string, servers: seq<Server>, x: string)
    requires Distinct(Ids(servers)) && Listed(servers, id)
    ensures multiset(RetryOrder(id, servers))[x] == multiset(Ids(servers))[x]
    ensures RetryOrder(id, servers) != [] && RetryOrder(id, servers)[0] == id
  {
    hide Grouped, Flat, Ids, ByLoad, Without, FirstIndex, Key, RetryOrder, OfKey, RegionsOf, HasKey, Listed;
    var regions := Grouped(servers);
    GroupedAreRegions(servers);
    FoundInItsRegion(regions, servers, id);
    var i := FirstIndex(regions, id).value;
    var later := regions[i + 1..] + regions[..i];
    RotatedAreRegions(regions, servers, i);
    CountsAreListed(servers, x);
    DistinctCounts(Ids(servers), x);
    FlatCounts(later, servers, x);
    RetryOrderFrom(id, servers, i);
    HomeCounts(regions, servers, i, id, x);
    ThreeCounts([id], Without(Ids(ByLoad(regions[i].servers)), id), Flat(later), x);
  }

  lemma HomeCounts(regions: seq<Region>, servers: seq<Server>, i: nat, id: string, x: string)
    requires RegionsOf(regions, servers) && i < |regions|
    ensures multiset(Without(Ids(ByLoad(regions[i].servers)), id))[x] ==
      if x != id && Key(x) == regions[i].key then multiset(Ids(servers))[x] else 0
  {
    WithoutCounts(Ids(ByLoad(regions[i].servers)), id, x);
    IdsOfByLoad(regions[i].servers, x);
    IdsOfKey(servers, x, regions[i].key);
  }

  lemma RetryOrderFrom(id: string, servers: seq<Server>, i: nat)
    requires FirstIndex(Grouped(servers), id) == Some(i)
    ensures var regions := Grouped(servers);
      RetryOrder(id, servers) == [id] + Without(Ids(ByLoad(regions[i].servers)), id) + Flat(regions[i + 1..] + regions[..i])
  {
  }

  lemma ThreeCounts(a: seq<string>, b: seq<string>, c: seq<string>, x: string)
    ensures multiset(a + b + c)[x] == multiset(a)[x] + multiset(b)[x] + multiset(c)[x]
  {
  }

  // ---- One candidate per other region ----

  /** The first id of the region `key`. */
  function First(ids: seq<string>, key: string): Option<string> {
    if ids == [] then None
    else
      var before := First(ids[..|ids| - 1], key);
      if before.Some? then before
      else if Key(ids[|ids| - 1]) == key then Some(ids[|ids| - 1])
      else None
  }

  lemma {:induction false} FirstIn(ids: seq<string>, key: string)
    ensures First(ids, key).Some? <==> exists x :: x in ids && Key(x) == key
    ensures First(ids, key).Some? ==> Key(First(ids, key).value) == key
    decreases |ids|
  {
    if ids != [] {
      FirstIn(ids[..|ids| - 1], key);
      assert ids == ids[..|ids| - 1] + [ids[|ids| - 1]];
      assert ids[|ids| - 1] in ids;
    }
  }

  lemma {:induction false} FirstOfBoth(a: seq<string>, b: seq<string>, key: string)
    ensures First(a + b, key) == if First(a, key).Some? then First(a, key) else First(b, key)
    decreases |b|
  {
    if b == [] {
      assert a + b == a;
    } else {
      FirstOfBoth(a, b[..|b| - 1], key);
      assert (a + b)[..|a + b| - 1] == a + b[..|b| - 1];
    }
  }

  lemma {:induction false} FirstOfMatching(ids: seq<string>, home: string, key: string)
    requires key != home
    ensures First(Matching(ids, home, false), key) == First(ids, key)
    decreases |ids|
  {
    if ids != [] {
      FirstOfMatching(ids[..|ids| - 1], home, key);
    }
  }

  lemma {:induction false} FirstOfWithout(ids: seq<string>, id: string, key: string)
    requires key != Key(id)
    ensures First(Without(ids, id), key) == First(ids, key)
    decreases |ids|
  {
    if ids != [] {
      FirstOfWithout(ids[..|ids| - 1], id, key);
    }
  }

  lemma {:induction false} FirstPerRegionCounts(ids: seq<string>, x: string)
    ensures multiset(FirstPerRegion(ids))[x] == if First(ids, Key(x)) == Some(x) then 1 else 0
    decreases |ids|
  {
    if ids != [] {
      var before, last := ids[..|ids| - 1], ids[|ids| - 1];
      FirstPerRegionCounts(before, x);
      FirstIn(before, Key(last));
    }
  }

  lemma MatchingLast(ids: seq<string>, key: string, same: bool)
    requires ids != []
    ensures var before, last := ids[..|ids| - 1], ids[|ids| - 1];
      Matching(ids, key, same) == if (Key(last) == key) == same then Matching(before, key, same) + [last] else Matching(before, key, same)
  {
  }

  lemma {:induction false} MatchingCounts(ids: seq<string>, key: string, same: bool, x: string)
    ensures multiset(Matching(ids, key, same))[x] == if (Key(x) == key) == same then multiset(ids)[x] else 0
    decreases |ids|
  {
    if ids != [] {
      var before, last := ids[..|ids| - 1], ids[|ids| - 1];
      MatchingCounts(before, key, same, x);
      assert ids == before + [last];
      MatchingLast(ids, key, same);
      hide *;
    }
  }

  /** The lightest node of a region. */
  function Lightest(servers: seq<Server>, key: string): Option<Server> {
    var nodes := ByLoad(OfKey(servers, key));
    if nodes == [] then None else Some(nodes[0])
  }

  /** Lightest of its region, and of those as light the first in hub order. */
  lemma LightestIsLightest(servers: seq<Server>, key: string, s: Server)
    requires Lightest(servers, key).Some?
    ensures var l := Lightest(servers, key).value;
      && l in servers && KeyOf(l) == key
      && (s in servers && KeyOf(s) == key ==> Load(l) <= Load(s))
      && WithLoad(OfKey(servers, key), Load(l)) != [] && WithLoad(OfKey(servers, key), Load(l))[0] == l
  {
    var nodes := OfKey(servers, key);
    var l := Lightest(servers, key).value;
    ByLoadIsStable(nodes, Load(l));
    assert l in multiset(ByLoad(nodes)) && l in nodes;
    OfKeyHasKey(servers, key, l);
    if s in servers && KeyOf(s) == key {
      OfKeyHasKey(servers, key, s);
      assert s in multiset(ByLoad(nodes));
    }
  }

  lemma {:induction false} FirstOfRegion(nodes: seq<Server>, r: string, key: string)
    requires forall s :: s in nodes ==> KeyOf(s) == r
    ensures First(Ids(nodes), key) == if nodes != [] && r == key then Some(nodes[0].id) else None
    decreases |nodes|
  {
    FirstIn(Ids(nodes), key);
    if nodes != [] {
      assert nodes == [nodes[0]] + nodes[1..];
      FirstOfRegion(nodes[1..], r, key);
      FirstOfBoth([nodes[0].id], Ids(nodes[1..]), key);
      assert First([nodes[0].id], key) == if KeyOf(nodes[0]) == key then Some(nodes[0].id) else None by {
        assert [nodes[0].id][..0] == [];
      }
    }
  }

  function LightestId(servers: seq<Server>, key: string): Option<string> {
    var l := Lightest(servers, key);
    if l.Some? then Some(l.value.id) else None
  }

  lemma FirstOfBlock(r: Region, servers: seq<Server>, key: string)
    requires r.servers == OfKey(servers, r.key)
    ensures First(Ids(ByLoad(r.servers)), key) == if r.key == key then LightestId(servers, key) else None
  {
    var nodes := ByLoad(r.servers);
    ByLoadIsStable(r.servers, 0);
    forall s | s in nodes ensures KeyOf(s) == r.key {
      assert s in multiset(nodes);
      OfKeyHasKey(servers, r.key, s);
    }
    FirstOfRegion(nodes, r.key, key);
  }

  lemma {:induction false} FirstOfFlat(regions: seq<Region>, servers: seq<Server>, key: string)
    requires RegionsOf(regions, servers)
    ensures First(Flat(regions), key) == if HasKey(regions, key) then LightestId(servers, key) else None
    decreases |regions|
  {
    if regions != [] {
      HeadKey(regions);
      FirstOfBlock(regions[0], servers, key);
      FirstOfFlat(regions[1..], servers, key);
      FirstOfBoth(Ids(ByLoad(regions[0].servers)), Flat(regions[1..]), key);
      LightestOfRegion(regions[0], servers);
      hide RegionsOf, HasKey, LightestId, First, Ids, ByLoad;
    }
  }

  lemma LightestOfRegion(r: Region, servers: seq<Server>)
    requires r.servers == OfKey(servers, r.key) && r.servers != []
    ensures LightestId(servers, r.key).Some?
  {
    ByLoadIsStable(r.servers, 0);
    assert r.servers[0] in multiset(ByLoad(r.servers));
  }

  lemma LightestIsListed(servers: seq<Server>, key: string)
    ensures LightestId(servers, key).Some? ==> HasKey(Grouped(servers), key)
  {
    GroupedAreRegions(servers);
    if LightestId(servers, key).Some? {
      var l := Lightest(servers, key).value;
      LightestIsLightest(servers, key, l);
    }
  }

  /** Of every other region, the order comes to its lightest node first. */
  lemma FirstOfRetryOrder(id: string, servers: seq<Server>, key: string)
    requires key != Key(id)
    ensures First(RetryOrder(id, servers), key) == LightestId(servers, key)
  {
    hide Grouped, Flat, Ids, ByLoad, Without, FirstIndex, Key, RetryOrder, OfKey, RegionsOf, HasKey, Listed, First, LightestId;
    var regions := Grouped(servers);
    GroupedAreRegions(servers);
    FoundInItsRegion(regions, servers, id);
    LightestIsListed(servers, key);
    if Listed(servers, id) {
      var i := FirstIndex(regions, id).value;
      var later := regions[i + 1..] + regions[..i];
      var block := Ids(ByLoad(regions[i].servers));
      RotatedAreRegions(regions, servers, i);
      FirstOfFlat(later, servers, key);
      FirstOfHome(regions, servers, i, id, key);
      FirstOfOne(id, key);
      FirstOfBoth([id], Without(block, id), key);
      FirstOfBoth([id] + Without(block, id), Flat(later), key);
      RetryOrderFrom(id, servers, i);
    } else {
      FirstOfFlat(regions, servers, key);
      RetryOrderUnlisted(id, servers);
    }
  }

  lemma FirstOfOne(id: string, key: string)
    ensures First([id], key) == if Key(id) == key then Some(id) else None
  {
    assert [id][..0] == [];
  }

  lemma FirstOfHome(regions: seq<Region>, servers: seq<Server>, i: nat, id: string, key: string)
    requires RegionsOf(regions, servers) && i < |regions| && regions[i].key == Key(id) != key
    ensures First(Without(Ids(ByLoad(regions[i].servers)), id), key) == None
  {
    FirstOfBlock(regions[i], servers, key);
    FirstOfWithout(Ids(ByLoad(regions[i].servers)), id, key);
  }

  lemma RetryOrderUnlisted(id: string, servers: seq<Server>)
    requires FirstIndex(Grouped(servers), id) == None
    ensures RetryOrder(id, servers) == Flat(Grouped(servers))
  {
  }

  /** Before the cut, exactly: the chosen id, every other server of its region, and of each other region
      the lightest node, each once. */
  lemma CandidatesAre(id: string, servers: seq<Server>, x: string)
    requires Distinct(Ids(servers))
    ensures Uncut(id, servers)[0] == id
    ensures multiset(Uncut(id, servers))[x] ==
      if x == id then 1
      else if Key(x) == Key(id) then if Listed(servers, x) then 1 else 0
      else if LightestId(servers, Key(x)) == Some(x) then 1 else 0
  {
    var home := Key(id);
    var retry := RetryOrder(id, servers);
    var order := Without(retry, id);
    var others := Matching(order, home, false);
    var siblings := Matching(order, home, true);
    assert Uncut(id, servers) == [id] + siblings + FirstPerRegion(others);
    ThreeCounts([id], siblings, FirstPerRegion(others), x);
    RetryOrderIsAPermutation(id, servers, x);
    CountsAreListed(servers, x);
    WithoutCounts(retry, id, x);
    MatchingCounts(order, home, true, x);
    FirstPerRegionCounts(others, x);
    FirstIn(others, home);
    if Key(x) == home {
      NoneOfHome(order, home);
    } else {
      FirstOfMatching(order, home, Key(x));
      FirstOfWithout(retry, id, Key(x));
      FirstOfRetryOrder(id, servers, Key(x));
    }
    hide *;
  }

  lemma {:induction false} NoneOfHome(ids: seq<string>, home: string)
    ensures First(Matching(ids, home, false), home) == None
    decreases |ids|
  {
    if ids != [] {
      NoneOfHome(ids[..|ids| - 1], home);
    }
  }

  lemma CountsMeanDistinct(ids: seq<string>)
    requires forall x :: multiset(ids)[x] <= 1
    ensures Distinct(ids)
  {
    forall i, j | 0 <= i < j < |ids| ensures ids[i] != ids[j] {
      assert ids == ids[..j] + ids[j..];
      assert ids[i] == ids[..j][i] && ids[j] == ids[j..][0];
      assert multiset(ids)[ids[i]] == multiset(ids[..j])[ids[i]] + multiset(ids[j..])[ids[i]];
    }
  }

  /** Duplicate-free, led by the chosen id, and at most `limit` of the uncut list. */
  lemma CandidatesAreCut(id: string, servers: seq<Server>, limit: nat)
    requires Distinct(Ids(servers))
    ensures Distinct(Candidates(id, servers, limit)) && |Candidates(id, servers, limit)| <= limit
    ensures Candidates(id, servers, limit) <= Uncut(id, servers)
    ensures limit > 0 ==> Candidates(id, servers, limit) != [] && Candidates(id, servers, limit)[0] == id
  {
    CandidatesAre(id, servers, id);
    forall x ensures multiset(Uncut(id, servers))[x] <= 1 {
      CandidatesAre(id, servers, x);
    }
    CountsMeanDistinct(Uncut(id, servers));
    hide Uncut;
  }

  // ---- The order before the cut ----

  /** The lightest id of each region, in the given order. */
  function Heads(regions: seq<Region>, servers: seq<Server>): seq<string> {
    if regions == [] then []
    else
      var head := LightestId(servers, regions[0].key);
      (if head.Some? then [head.value] else []) + Heads(regions[1..], servers)
  }

  /** The other regions as a retry comes to them: from the one after the chosen server's round to the one
      before it, or, for a server that is not listed, all but its own key's in hub order. */
  function OtherRegions(id: string, servers: seq<Server>): seq<Region> {
    var regions := Grouped(servers);
    var index := FirstIndex(regions, id);
    if index.Some? then regions[index.value + 1..] + regions[..index.value]
    else AllBut(regions, KeyIndex(regions, Key(id)))
  }

  function AllBut(regions: seq<Region>, index: nat): seq<Region> {
    if index < |regions| then regions[..index] + regions[index + 1..] else regions
  }

  function KeyIndex(regions: seq<Region>, key: string): (index: nat)
    ensures index <= |regions| && (index < |regions| ==> regions[index].key == key)
    ensures forall i :: 0 <= i < index ==> regions[i].key != key
  {
    if regions == [] || regions[0].key == key then 0 else 1 + KeyIndex(regions[1..], key)
  }

  ghost predicate AllOfKey(ids: seq<string>, key: string) {
    forall i :: 0 <= i < |ids| ==> Key(ids[i]) == key
  }

  ghost predicate NoneOfKey(ids: seq<string>, key: string) {
    forall i :: 0 <= i < |ids| ==> Key(ids[i]) != key
  }

  lemma {:induction false} MatchingAll(ids: seq<string>, key: string, same: bool)
    requires AllOfKey(ids, key)
    ensures Matching(ids, key, same) == if same then ids else []
    decreases |ids|
  {
    if ids != [] {
      LastAndBefore(ids);
      MatchingAll(ids[..|ids| - 1], key, same);
      MatchingLast(ids, key, same);
      hide Matching, Key;
    }
  }

  lemma {:induction false} MatchingNone(ids: seq<string>, key: string, same: bool)
    requires NoneOfKey(ids, key)
    ensures Matching(ids, key, same) == if same then [] else ids
    decreases |ids|
  {
    if ids != [] {
      LastAndBefore(ids);
      MatchingNone(ids[..|ids| - 1], key, same);
      MatchingLast(ids, key, same);
      hide Matching, Key;
    }
  }

  lemma LastAndBefore(ids: seq<string>)
    requires ids != []
    ensures ids == ids[..|ids| - 1] + [ids[|ids| - 1]]
  {
  }

  lemma {:induction false} MatchingBoth(a: seq<string>, b: seq<string>, key: string, same: bool)
    ensures Matching(a + b, key, same) == Matching(a, key, same) + Matching(b, key, same)
    decreases |b|
  {
    if b == [] {
      assert a + b == a;
      assert Matching(a, key, same) + [] == Matching(a, key, same);
    } else {
      var before, last := b[..|b| - 1], b[|b| - 1];
      assert (a + b)[..|a + b| - 1] == a + before && (a + b)[|a + b| - 1] == last;
      MatchingBoth(a, before, key, same);
      MatchingLast(a + b, key, same);
      MatchingLast(b, key, same);
      hide Matching;
    }
  }

  lemma {:induction false} WithoutBoth(a: seq<string>, b: seq<string>, id: string)
    ensures Without(a + b, id) == Without(a, id) + Without(b, id)
    decreases |b|
  {
    if b == [] {
      assert a + b == a;
      assert Without(a, id) + [] == Without(a, id);
    } else {
      var before, last := b[..|b| - 1], b[|b| - 1];
      assert (a + b)[..|a + b| - 1] == a + before && (a + b)[|a + b| - 1] == last;
      WithoutBoth(a, before, id);
      WithoutLast(a + b, id);
      WithoutLast(b, id);
      hide Without;
    }
  }

  lemma WithoutLast(ids: seq<string>, id: string)
    requires ids != []
    ensures var before, last := ids[..|ids| - 1], ids[|ids| - 1];
      Without(ids, id) == if last == id then Without(before, id) else Without(before, id) + [last]
  {
  }

  lemma {:induction false} WithoutNone(ids: seq<string>, id: string)
    requires id !in ids
    ensures Without(ids, id) == ids
    decreases |ids|
  {
    if ids != [] {
      WithoutNone(ids[..|ids| - 1], id);
      WithoutLast(ids, id);
      assert ids == ids[..|ids| - 1] + [ids[|ids| - 1]];
    }
  }

  lemma {:induction false} IdsOfOneKey(nodes: seq<Server>, key: string)
    requires forall s :: s in nodes ==> KeyOf(s) == key
    ensures AllOfKey(Ids(nodes), key) && |Ids(nodes)| == |nodes|
    decreases |nodes|
  {
    if nodes != [] {
      hide Key;
      assert KeyOf(nodes[0]) == key;
      assert forall s :: s in nodes[1..] ==> s in nodes;
      IdsOfOneKey(nodes[1..], key);
      var rest := Ids(nodes[1..]);
      assert Ids(nodes) == [nodes[0].id] + rest;
      hide Ids;
    }
  }

  lemma BlockIsOfItsKey(r: Region, servers: seq<Server>)
    requires r.servers == OfKey(servers, r.key)
    ensures AllOfKey(Ids(ByLoad(r.servers)), r.key) && |Ids(ByLoad(r.servers))| == |r.servers|
  {
    ByLoadIsStable(r.servers, 0);
    assert |multiset(ByLoad(r.servers))| == |multiset(r.servers)|;
    forall s | s in ByLoad(r.servers) ensures KeyOf(s) == r.key {
      assert s in multiset(ByLoad(r.servers));
      OfKeyHasKey(servers, r.key, s);
    }
    IdsOfOneKey(ByLoad(r.servers), r.key);
  }

  lemma {:induction false} FlatBoth(a: seq<Region>, b: seq<Region>)
    ensures Flat(a + b) == Flat(a) + Flat(b)
    decreases |a|
  {
    if a == [] {
      assert a + b == b;
    } else {
      assert (a + b)[1..] == a[1..] + b;
      FlatBoth(a[1..], b);
    }
  }

  lemma {:induction false} FlatHasNoneOf(regions: seq<Region>, servers: seq<Server>, key: string)
    requires RegionsOf(regions, servers) && !HasKey(regions, key)
    ensures NoneOfKey(Flat(regions), key)
    decreases |regions|
  {
    if regions != [] {
      HeadKey(regions);
      TailAreRegions(regions, servers);
      FlatHasNoneOf(regions[1..], servers, key);
      BlockIsOfItsKey(regions[0], servers);
      hide RegionsOf, HasKey, Ids, ByLoad, Key;
    }
  }

  ghost predicate KeysApart(a: seq<string>, b: seq<string>) {
    forall i, j :: 0 <= i < |a| && 0 <= j < |b| ==> Key(a[i]) != Key(b[j])
  }

  lemma FirstPerRegionLast(ids: seq<string>)
    requires ids != []
    ensures var before, last := ids[..|ids| - 1], ids[|ids| - 1];
      FirstPerRegion(ids) ==
        if exists x :: x in before && Key(x) == Key(last) then FirstPerRegion(before) else FirstPerRegion(before) + [last]
  {
  }

  lemma SeenInTheSecond(a: seq<string>, b: seq<string>, last: string)
    requires forall i :: 0 <= i < |a| ==> Key(a[i]) != Key(last)
    ensures (exists x :: x in a + b && Key(x) == Key(last)) <==> exists x :: x in b && Key(x) == Key(last)
  {
    hide Key;
  }

  lemma {:induction false} FirstPerRegionBoth(a: seq<string>, b: seq<string>)
    requires KeysApart(a, b)
    ensures FirstPerRegion(a + b) == FirstPerRegion(a) + FirstPerRegion(b)
    decreases |b|
  {
    if b == [] {
      assert a + b == a;
      assert FirstPerRegion(a) + [] == FirstPerRegion(a);
    } else {
      var before, last := b[..|b| - 1], b[|b| - 1];
      var u := a + b;
      assert u[..|u| - 1] == a + before && u[|u| - 1] == last;
      FirstPerRegionBoth(a, before);
      FirstPerRegionLast(u);
      FirstPerRegionLast(b);
      hide FirstPerRegion, Key;
      SeenInTheSecond(a, before, last);
    }
  }

  lemma {:induction false} FirstOfOneKey(ids: seq<string>, key: string)
    requires ids != [] && AllOfKey(ids, key)
    ensures FirstPerRegion(ids) == [ids[0]]
    decreases |ids|
  {
    var before, last := ids[..|ids| - 1], ids[|ids| - 1];
    FirstPerRegionLast(ids);
    hide FirstPerRegion, Key;
    if before == [] {
      FirstOfNone();
    } else {
      FirstOfOneKey(before, key);
      assert before[0] in before && Key(before[0]) == Key(last);
    }
  }

  lemma FirstOfNone()
    ensures FirstPerRegion([]) == []
  {
  }

  lemma {:induction false} FirstPerRegionIsHeads(regions: seq<Region>, servers: seq<Server>)
    requires RegionsOf(regions, servers)
    ensures FirstPerRegion(Flat(regions)) == Heads(regions, servers)
    decreases |regions|
  {
    if regions != [] {
      var block, rest := Ids(ByLoad(regions[0].servers)), Flat(regions[1..]);
      TailAreRegions(regions, servers);
      FirstPerRegionIsHeads(regions[1..], servers);
      BlockIsOfItsKey(regions[0], servers);
      FlatHasNoneOf(regions[1..], servers, regions[0].key);
      assert |block| > 0;
      FirstOfOneKey(block, regions[0].key);
      FirstPerRegionBoth(block, rest);
      assert LightestId(servers, regions[0].key) == Some(block[0]);
      hide FirstPerRegion, RegionsOf, Ids, ByLoad, Key;
    }
  }

  lemma {:induction false} WithoutKeepsKeys(ids: seq<string>, id: string, key: string)
    requires AllOfKey(ids, key)
    ensures AllOfKey(Without(ids, id), key) && id !in Without(ids, id)
    decreases |ids|
  {
    hide Key;
    if ids != [] {
      WithoutKeepsKeys(ids[..|ids| - 1], id, key);
      WithoutLast(ids, id);
      hide Without;
    }
  }

  lemma NotOfItsKey(ids: seq<string>, id: string)
    requires NoneOfKey(ids, Key(id))
    ensures id !in ids
  {
    hide Key;
  }

  /** The parts of a retry's order without the chosen id: its siblings, and the other regions. */
  ghost predicate Parts(id: string, order: seq<string>, siblings: seq<string>, others: seq<Region>) {
    Matching(order, Key(id), true) == siblings && Matching(order, Key(id), false) == Flat(others)
  }

  lemma PartsOf(id: string, a: seq<string>, block: seq<string>, b: seq<string>, others: seq<Region>)
    requires NoneOfKey(a, Key(id)) && AllOfKey(block, Key(id)) && NoneOfKey(b, Key(id)) && a + b == Flat(others)
    ensures Parts(id, a + block + b, block, others)
  {
    hide Matching, AllOfKey, NoneOfKey, Flat, Key;
    MatchingBoth(a + block, b, Key(id), true);
    MatchingBoth(a, block, Key(id), true);
    MatchingBoth(a + block, b, Key(id), false);
    MatchingBoth(a, block, Key(id), false);
    MatchingNone(a, Key(id), true);
    MatchingNone(a, Key(id), false);
    MatchingAll(block, Key(id), true);
    MatchingAll(block, Key(id), false);
    MatchingNone(b, Key(id), true);
    MatchingNone(b, Key(id), false);
    Empties(a, block, b);
  }

  lemma Empties(a: seq<string>, block: seq<string>, b: seq<string>)
    ensures [] + block + [] == block && a + [] + b == a + b
  {
  }

  lemma ListedParts(id: string, servers: seq<Server>, i: nat)
    requires FirstIndex(Grouped(servers), id) == Some(i) && RegionsOf(Grouped(servers), servers) && Grouped(servers)[i].key == Key(id)
    ensures RegionsOf(OtherRegions(id, servers), servers)
    ensures Parts(id, Without(RetryOrder(id, servers), id), Without(Ids(ByLoad(OfKey(servers, Key(id)))), id), OtherRegions(id, servers))
  {
    hide Grouped, Flat, Ids, ByLoad, Without, FirstIndex, Key, RetryOrder, OfKey, RegionsOf, HasKey, AllOfKey, NoneOfKey, Parts;
    var regions := Grouped(servers);
    var later := regions[i + 1..] + regions[..i];
    RotatedAreRegions(regions, servers, i);
    RegionAt(regions, servers, i);
    var block := Ids(ByLoad(regions[i].servers));
    BlockIsOfItsKey(regions[i], servers);
    FlatHasNoneOf(later, servers, Key(id));
    RetryOrderFrom(id, servers, i);
    WithoutBoth([id] + Without(block, id), Flat(later), id);
    WithoutBoth([id], Without(block, id), id);
    WithoutOne(id);
    WithoutKeepsKeys(block, id, Key(id));
    WithoutNone(Without(block, id), id);
    NotOfItsKey(Flat(later), id);
    WithoutNone(Flat(later), id);
    NoneIn(Key(id));
    assert [] + Without(block, id) == Without(block, id) && [] + Flat(later) == Flat(later);
    PartsOf(id, [], Without(block, id), Flat(later), later);
  }

  lemma RegionAt(regions: seq<Region>, servers: seq<Server>, i: nat)
    requires RegionsOf(regions, servers) && i < |regions|
    ensures regions[i].servers == OfKey(servers, regions[i].key)
  {
  }

  lemma WithoutOne(id: string)
    ensures Without([id], id) == []
  {
    assert [id][..0] == [];
  }

  lemma NoneIn(key: string)
    ensures NoneOfKey([], key) && AllOfKey([], key)
  {
  }

  lemma UnlistedIsNotThere(id: string, regions: seq<Region>, servers: seq<Server>)
    requires RegionsOf(regions, servers) && !Listed(servers, id)
    ensures id !in Flat(regions)
  {
    FlatCounts(regions, servers, id);
    CountsAreListed(servers, id);
  }

  /** Leaving one region out. */
  lemma AllButAreRegions(regions: seq<Region>, servers: seq<Server>, i: nat)
    requires RegionsOf(regions, servers) && i < |regions|
    ensures RegionsOf(regions[..i], servers) && RegionsOf(regions[i + 1..], servers) && RegionsOf(AllBut(regions, i), servers)
    ensures !HasKey(regions[..i], regions[i].key) && !HasKey(regions[i + 1..], regions[i].key)
  {
    hide OfKey;
    var a, b := regions[..i], regions[i + 1..];
    assert forall k :: 0 <= k < |b| ==> b[k] == regions[i + 1 + k];
    assert forall k :: 0 <= k < |a + b| ==> (a + b)[k] == regions[if k < i then k else k + 1];
  }

  lemma AllButIsFlat(regions: seq<Region>, i: nat)
    requires i < |regions|
    ensures Flat(regions) == Flat(regions[..i]) + Ids(ByLoad(regions[i].servers)) + Flat(regions[i + 1..])
    ensures Flat(AllBut(regions, i)) == Flat(regions[..i]) + Flat(regions[i + 1..])
  {
    hide Ids, ByLoad, Flat;
    var a, b := regions[..i], regions[i + 1..];
    FlatBoth(a, b);
    FlatBoth(a, [regions[i]] + b);
    FlatFirst(regions[i], b);
    Rejoined(regions, i);
    Assoc(Flat(a), Ids(ByLoad(regions[i].servers)), Flat(b));
  }

  lemma Rejoined(regions: seq<Region>, i: nat)
    requires i < |regions|
    ensures regions == regions[..i] + ([regions[i]] + regions[i + 1..])
  {
  }

  lemma FlatFirst(r: Region, regions: seq<Region>)
    ensures Flat([r] + regions) == Ids(ByLoad(r.servers)) + Flat(regions)
  {
    assert ([r] + regions)[1..] == regions;
  }

  lemma Assoc(x: seq<string>, y: seq<string>, z: seq<string>)
    ensures x + (y + z) == x + y + z
  {
  }

  lemma UnlistedParts(id: string, servers: seq<Server>)
    requires FirstIndex(Grouped(servers), id) == None && RegionsOf(Grouped(servers), servers) && !Listed(servers, id)
    ensures RegionsOf(OtherRegions(id, servers), servers)
    ensures Parts(id, Without(RetryOrder(id, servers), id), Without(Ids(ByLoad(OfKey(servers, Key(id)))), id), OtherRegions(id, servers))
  {
    hide Grouped, Flat, Ids, ByLoad, Without, FirstIndex, Key, RetryOrder, OfKey, RegionsOf, HasKey, AllOfKey, NoneOfKey, Parts, Listed, AllBut, KeyIndex;
    var regions := Grouped(servers);
    var i := KeyIndex(regions, Key(id));
    RetryOrderUnlisted(id, servers);
    UnlistedIsNotThere(id, regions, servers);
    WithoutNone(Flat(regions), id);
    if i < |regions| {
      RegionAt(regions, servers, i);
      var block := Ids(ByLoad(regions[i].servers));
      AllButAreRegions(regions, servers, i);
      AllButIsFlat(regions, i);
      BlockIsOfItsKey(regions[i], servers);
      FlatHasNoneOf(regions[..i], servers, Key(id));
      FlatHasNoneOf(regions[i + 1..], servers, Key(id));
      PartsOf(id, Flat(regions[..i]), block, Flat(regions[i + 1..]), AllBut(regions, i));
      BlockWithoutUnlisted(id, servers, regions, i);
    } else {
      NoSuchKey(id, regions, servers);
      FlatHasNoneOf(regions, servers, Key(id));
      NoneIn(Key(id));
      assert [] + [] + Flat(regions) == Flat(regions) && [] + Flat(regions) == Flat(regions);
      PartsOf(id, [], [], Flat(regions), regions);
      AllButNone(regions, i);
    }
  }

  lemma AllButNone(regions: seq<Region>, i: nat)
    requires i >= |regions|
    ensures AllBut(regions, i) == regions
  {
  }

  lemma BlockWithoutUnlisted(id: string, servers: seq<Server>, regions: seq<Region>, i: nat)
    requires RegionsOf(regions, servers) && i < |regions| && id !in Flat(regions)
    ensures Without(Ids(ByLoad(regions[i].servers)), id) == Ids(ByLoad(regions[i].servers))
  {
    AllButIsFlat(regions, i);
    hide Flat, Ids, ByLoad;
    WithoutNone(Ids(ByLoad(regions[i].servers)), id);
  }

  lemma NoSuchKey(id: string, regions: seq<Region>, servers: seq<Server>)
    requires regions == Grouped(servers) && KeyIndex(regions, Key(id)) == |regions|
    ensures !HasKey(regions, Key(id)) && Without(Ids(ByLoad(OfKey(servers, Key(id)))), id) == []
  {
    NewKeyIsEmpty(servers, Key(id));
    assert forall i :: 0 <= i < |regions| ==> regions[i].key == Keys(servers)[i];
  }

  /** The order before the cut: the chosen id, its siblings by load, then the lightest node of each other
      region as the regions come round. */
  lemma CandidatesAreInOrder(id: string, servers: seq<Server>)
    ensures Uncut(id, servers) ==
      [id] + Without(Ids(ByLoad(OfKey(servers, Key(id)))), id) + Heads(OtherRegions(id, servers), servers)
  {
    hide Grouped, Flat, Ids, ByLoad, Without, FirstIndex, Key, RetryOrder, OfKey, RegionsOf, HasKey, OtherRegions, Heads, Listed;
    var regions := Grouped(servers);
    GroupedAreRegions(servers);
    FoundInItsRegion(regions, servers, id);
    if Listed(servers, id) {
      ListedParts(id, servers, FirstIndex(regions, id).value);
    } else {
      UnlistedParts(id, servers);
    }
    FirstPerRegionIsHeads(OtherRegions(id, servers), servers);
  }
}
