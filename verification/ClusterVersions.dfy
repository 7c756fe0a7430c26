/** Clusters as the registry describes them, and the versions they are compared by:
    the configuration version of the channel together with a hash of the metadata. */
module ClusterVersions {
  import opened Strings

  datatype NodePoolDesc = NodePoolDesc(
    name: string, profile: string, instanceTypes: seq<string>, discountStrategy: string,
    minSize: int, maxSize: int, configItems: map<string, string>)

  datatype Problem = Problem(title: string, kind: string)

  datatype Status = Status(currentVersion: string, lastVersion: string, nextVersion: string, problems: seq<Problem>)

  datatype Cluster = Cluster(
    id: string, account: string, localId: string, apiServerUrl: string, channel: string, environment: string,
    criticality: int, lifecycle: string, provider: string, region: string,
    configItems: map<string, string>, nodePools: seq<NodePoolDesc>, status: Status)

  /******* Version strings *******/

  datatype ClusterVersion = ClusterVersion(config: string, hash: string)

  function ParseVersion(version: string): ClusterVersion {
    var tokens := Split(version, '#');
    if |tokens| != 2 then ClusterVersion("", "") else ClusterVersion(tokens[0], tokens[1])
  }

  function ToString(v: ClusterVersion): string {
    v.config + "#" + v.hash
  }

  /** A version survives being stored as a string exactly if neither part contains
      the separator. What is not two parts with a separator is read as no version at all. */
  lemma ParseToString(v: ClusterVersion)
    ensures ParseVersion(ToString(v)) == v <==> '#' !in v.config && '#' !in v.hash
    ensures '#' in v.config || '#' in v.hash ==> ParseVersion(ToString(v)) == ClusterVersion("", "")
    ensures '#' !in v.config ==> ParseVersion(v.config) == ClusterVersion("", "")
  {
    if '#' !in v.config {
      SplitWhole(v.config, '#');
    }
    var s := ToString(v);
    if '#' in v.config {
      var a, b := FirstSplit(v.config, '#');
      assert s == a + ['#'] + (b + "#" + v.hash);
      SplitHead(a, '#', b + "#" + v.hash);
      SplitTwice(b, v.hash);
    } else {
      SplitHead(v.config, '#', v.hash);
      if '#' in v.hash {
        var a, b := FirstSplit(v.hash, '#');
        SplitHead(a, '#', b);
      } else {
        SplitWhole(v.hash, '#');
      }
    }
  }

  lemma SplitTwice(a: string, b: string)
    ensures |Split(a + "#" + b, '#')| >= 2
  {
    var s := a + "#" + b;
    assert s[|a|] == '#';
    var x, y := FirstSplit(s, '#');
    SplitHead(x, '#', y);
  }

  /******* The hashed metadata *******/

  const INT32_BYTES := 4
  const INT64_BYTES := 8

  /** The low `width` bytes of x, least significant first. */
  function LittleEndian(x: int, width: nat): string
    decreases width
  {
    if width == 0 then [] else [(x % 256) as char] + LittleEndian(x / 256, width - 1)
  }

  function Items(keys: seq<string>, items: map<string, string>): string
    requires forall k :: k in keys ==> k in items
  {
    if keys == [] then [] else Items(keys[..|keys| - 1], items) + keys[|keys| - 1] + items[keys[|keys| - 1]]
  }

  /** Config items in the order of their keys. */
  ghost function SortedItems(items: map<string, string>): string {
    var keys := InOrder(items.Keys);
    assert forall k :: k in keys ==> k in Elements(keys);
    Items(keys, items)
  }

  function Joined(parts: seq<string>): string {
    if parts == [] then [] else Joined(parts[..|parts| - 1]) + parts[|parts| - 1]
  }

  ghost function PoolInput(p: NodePoolDesc): string {
    Joined(PoolParts(p, SortedItems(p.configItems)))
  }

  function PoolParts(p: NodePoolDesc, items: string): seq<string> {
    [p.name, p.profile, Joined(p.instanceTypes), p.discountStrategy, LittleEndian(p.minSize, INT64_BYTES),
     LittleEndian(p.maxSize, INT64_BYTES), items]
  }

  ghost function PoolInputs(pools: seq<NodePoolDesc>): seq<string> {
    seq(|pools|, i requires 0 <= i < |pools| => PoolInput(pools[i]))
  }

  ghost function PoolsInput(pools: seq<NodePoolDesc>): string {
    Joined(PoolInputs(pools))
  }

  /** What the cluster hash is computed from. The status is not part of it, the
      lifecycle status is. */
  ghost function HashInput(c: Cluster): string {
    Joined(ClusterParts(c, SortedItems(c.configItems), PoolsInput(c.nodePools)))
  }

  function ClusterParts(c: Cluster, items: string, pools: string): seq<string> {
    [c.id, c.account, c.localId, c.apiServerUrl, c.channel, c.environment, LittleEndian(c.criticality, INT32_BYTES),
     c.lifecycle, c.provider, c.region, items, pools]
  }

  /** Writes the config items out. The keys are collected in whatever order the map
      is iterated; sorting makes the result a function of the map alone. */
  method WriteItems(items: map<string, string>) returns (state: string)
    ensures state == SortedItems(items)
  {
    var keys := Keys(items);
    keys := Sort(keys);
    SortedUnique(keys, InOrder(items.Keys));
    assert forall k :: k in keys ==> k in Elements(keys);
    state := WriteSorted(keys, items);
  }

  method WriteSorted(keys: seq<string>, items: map<string, string>) returns (state: string)
    requires forall k :: k in keys ==> k in items
    ensures state == Items(keys, items)
  {
    state := [];
    for i := 0 to |keys|
      invariant state == Items(keys[..i], items)
    {
      assert keys[..i + 1][..i] == keys[..i];
      state := state + keys[i] + items[keys[i]];
    }
    assert keys[..|keys|] == keys;
  }

  /** The keys of a map as a loop over it meets them. */
  method Keys(items: map<string, string>) returns (keys: seq<string>)
    ensures Distinct(keys) && Elements(keys) == items.Keys
  {
    var todo := items.Keys;
    keys := [];
    while todo != {}
      invariant Distinct(keys) && Elements(keys) == items.Keys - todo && todo <= items.Keys
    {
      var key :| key in todo;
      assert key !in Elements(keys);
      assert Elements(keys + [key]) == Elements(keys) + {key};
      keys := keys + [key];
      todo := todo - {key};
    }
  }

  method WritePool(p: NodePoolDesc) returns (state: string)
    ensures state == PoolInput(p)
  {
    var types := [];
    for i := 0 to |p.instanceTypes|
      invariant types == Joined(p.instanceTypes[..i])
    {
      assert p.instanceTypes[..i + 1][..i] == p.instanceTypes[..i];
      types := types + p.instanceTypes[i];
    }
    assert p.instanceTypes[..|p.instanceTypes|] == p.instanceTypes;
    var items := WriteItems(p.configItems);
    state := Joined([p.name, p.profile, types, p.discountStrategy, LittleEndian(p.minSize, INT64_BYTES),
                     LittleEndian(p.maxSize, INT64_BYTES), items]);
  }

  lemma JoinedNext(parts: seq<string>, i: nat)
    requires i < |parts|
    ensures Joined(parts[..i + 1]) == Joined(parts[..i]) + parts[i]
  {
    assert parts[..i + 1][..i] == parts[..i];
  }

  method WritePools(pools: seq<NodePoolDesc>) returns (state: string)
    ensures state == PoolsInput(pools)
  {
    ghost var inputs := PoolInputs(pools);
    state := [];
    for i := 0 to |pools|
      invariant state == Joined(inputs[..i])
    {
      JoinedNext(inputs, i);
      var pool := WritePool(pools[i]);
      state := state + pool;
    }
    assert inputs[..|pools|] == inputs;
  }

  /** `Cluster.Version` for a config version and a hash function. */
  method Version(c: Cluster, config: string, sha: string -> string) returns (v: ClusterVersion)
    ensures v == VersionOf(c, config, sha)
  {
    var items := WriteItems(c.configItems);
    var pools := WritePools(c.nodePools);
    v := ClusterVersion(config, sha(Joined(ClusterParts(c, items, pools))));
  }

  ghost function VersionOf(c: Cluster, config: string, sha: string -> string): ClusterVersion {
    ClusterVersion(config, sha(HashInput(c)))
  }

  /** The hash does not see the status: what an update writes there leaves the
      version alone. */
  lemma StatusNotHashed(c: Cluster, status: Status, config: string, sha: string -> string)
    ensures VersionOf(c.(status := status), config, sha) == VersionOf(c, config, sha)
  {
    assert HashInput(c.(status := status)) == HashInput(c);
  }

  /******* What the hash sees *******/

  lemma {:induction false} JoinedAt(parts: seq<string>, i: nat, x: string)
    requires i < |parts|
    ensures Joined(parts[i := x]) == Joined(parts) <==> x == parts[i]
  {
    var other, last := parts[i := x], |parts| - 1;
    if i == last {
      assert other[..last] == parts[..last];
      SamePrefix(Joined(parts[..last]), x, parts[i]);
    } else {
      assert other[..last] == parts[..last][i := x];
      JoinedAt(parts[..last], i, x);
      SameSuffix(Joined(other[..last]), Joined(parts[..last]), parts[last]);
    }
  }

  lemma SamePrefix(a: string, x: string, y: string)
    ensures a + x == a + y <==> x == y
  {
    assert (a + x)[|a|..] == x && (a + y)[|a|..] == y;
  }

  lemma SameSuffix(x: string, y: string, b: string)
    ensures x + b == y + b <==> x == y
  {
    if x + b == y + b {
      assert |x| == |y|;
      assert (x + b)[..|x|] == x && (y + b)[..|y|] == y;
    }
  }

  function Power256(width: nat): int {
    if width == 0 then 1 else 256 * Power256(width - 1)
  }

  lemma {:induction false} LittleEndianInjective(x: int, y: int, width: nat)
    requires -Power256(width) < x - y < Power256(width)
    ensures LittleEndian(x, width) == LittleEndian(y, width) <==> x == y
    decreases width
  {
    if width > 0 && LittleEndian(x, width) == LittleEndian(y, width) {
      var s, t := LittleEndian(x, width), LittleEndian(y, width);
      assert s[0] == t[0] && s[1..] == t[1..];
      assert (x % 256) as char == (y % 256) as char;
      LittleEndianInjective(x / 256, y / 256, width - 1);
    }
  }

  predicate Int32(x: int) { -0x8000_0000 <= x < 0x8000_0000 }

  predicate Int64(x: int) { -0x8000_0000_0000_0000 <= x < 0x8000_0000_0000_0000 }

  /** A change of any one of the fields of a cluster changes what is hashed. */
  lemma FieldsHashed(c: Cluster, x: string, criticality: int)
    ensures HashInput(c.(id := x)) == HashInput(c) <==> x == c.id
    ensures HashInput(c.(account := x)) == HashInput(c) <==> x == c.account
    ensures HashInput(c.(localId := x)) == HashInput(c) <==> x == c.localId
    ensures HashInput(c.(apiServerUrl := x)) == HashInput(c) <==> x == c.apiServerUrl
    ensures HashInput(c.(channel := x)) == HashInput(c) <==> x == c.channel
    ensures HashInput(c.(environment := x)) == HashInput(c) <==> x == c.environment
    ensures HashInput(c.(lifecycle := x)) == HashInput(c) <==> x == c.lifecycle
    ensures HashInput(c.(provider := x)) == HashInput(c) <==> x == c.provider
    ensures HashInput(c.(region := x)) == HashInput(c) <==> x == c.region
    ensures Int32(criticality) && Int32(c.criticality) ==>
      (HashInput(c.(criticality := criticality)) == HashInput(c) <==> criticality == c.criticality)
  {
    PartHashed(c, c.(id := x), 0);
    PartHashed(c, c.(account := x), 1);
    PartHashed(c, c.(localId := x), 2);
    PartHashed(c, c.(apiServerUrl := x), 3);
    PartHashed(c, c.(channel := x), 4);
    PartHashed(c, c.(environment := x), 5);
    PartHashed(c, c.(criticality := criticality), 6);
    PartHashed(c, c.(lifecycle := x), 7);
    PartHashed(c, c.(provider := x), 8);
    PartHashed(c, c.(region := x), 9);
    CriticalityHashed(criticality, c.criticality);
  }

  lemma CriticalityHashed(x: int, y: int)
    ensures Int32(x) && Int32(y) ==> (LittleEndian(x, INT32_BYTES) == LittleEndian(y, INT32_BYTES) <==> x == y)
  {
    if Int32(x) && Int32(y) {
      assert Power256(4) == 0x1_0000_0000;
      LittleEndianInjective(x, y, INT32_BYTES);
    }
  }

  ghost function Part(c: Cluster, i: nat): string {
    PartOf(c, SortedItems(c.configItems), PoolsInput(c.nodePools), i)
  }

  function PartOf(c: Cluster, items: string, pools: string, i: nat): string {
    match i
    case 0 => c.id
    case 1 => c.account
    case 2 => c.localId
    case 3 => c.apiServerUrl
    case 4 => c.channel
    case 5 => c.environment
    case 6 => LittleEndian(c.criticality, INT32_BYTES)
    case 7 => c.lifecycle
    case 8 => c.provider
    case 9 => c.region
    case 10 => items
    case _ => pools
  }

  /** Clusters that differ in one part only. */
  ghost predicate DifferIn(i: nat, c: Cluster, d: Cluster) {
    && FieldsDifferIn(i, c, d)
    && (i == 10 || d.configItems == c.configItems) && (i == 11 || d.nodePools == c.nodePools)
  }

  ghost predicate FieldsDifferIn(i: nat, c: Cluster, d: Cluster) {
    && (i == 0 || d.id == c.id) && (i == 1 || d.account == c.account) && (i == 2 || d.localId == c.localId)
    && (i == 3 || d.apiServerUrl == c.apiServerUrl) && (i == 4 || d.channel == c.channel)
    && (i == 5 || d.environment == c.environment) && (i == 6 || d.criticality == c.criticality)
    && (i == 7 || d.lifecycle == c.lifecycle) && (i == 8 || d.provider == c.provider)
    && (i == 9 || d.region == c.region)
  }

  lemma PartHashed(c: Cluster, d: Cluster, i: nat)
    requires i < 12 && DifferIn(i, c, d)
    ensures HashInput(d) == HashInput(c) <==> Part(d, i) == Part(c, i)
  {
    var items, pools := SortedItems(c.configItems), PoolsInput(c.nodePools);
    var items', pools' := SortedItems(d.configItems), PoolsInput(d.nodePools);
    PartsReplaced(c, items, pools, d, items', pools', i);
    JoinedAt(ClusterParts(c, items, pools), i, PartOf(d, items', pools', i));
  }

  lemma PartsReplaced(c: Cluster, items: string, pools: string, d: Cluster, items': string, pools': string, i: nat)
    requires i < 12 && FieldsDifferIn(i, c, d) && (i == 10 || items' == items) && (i == 11 || pools' == pools)
    ensures ClusterParts(d, items', pools') == ClusterParts(c, items, pools)[i := PartOf(d, items', pools', i)]
    ensures ClusterParts(c, items, pools)[i] == PartOf(c, items, pools, i)
  {
    var p, q := ClusterParts(c, items, pools), ClusterParts(d, items', pools');
    forall j | 0 <= j < 12 ensures q[j] == p[i := PartOf(d, items', pools', i)][j] {
      ClusterPartsAre(c, items, pools, j);
      ClusterPartsAre(d, items', pools', j);
      assert j != i ==> PartOf(d, items', pools', j) == PartOf(c, items, pools, j);
    }
    ClusterPartsAre(c, items, pools, i);
  }

  lemma ClusterPartsAre(c: Cluster, items: string, pools: string, i: nat)
    requires i < 12
    ensures ClusterParts(c, items, pools)[i] == PartOf(c, items, pools, i)
  {
  }

  /** So does a change of a config item, or a new one, unless that is empty. */
  lemma ConfigItemsHashed(c: Cluster, k: string, v: string)
    ensures HashInput(c.(configItems := c.configItems[k := v])) == HashInput(c) <==>
      if k in c.configItems then v == c.configItems[k] else k == "" && v == ""
  {
    SortedItemsChange(c.configItems, k, v);
    PartHashed(c, c.(configItems := c.configItems[k := v]), 10);
  }

  lemma SortedItemsChange(items: map<string, string>, k: string, v: string)
    ensures SortedItems(items[k := v]) == SortedItems(items) <==>
      if k in items then v == items[k] else k == "" && v == ""
  {
    var keys := InOrder(items.Keys);
    assert forall x :: x in keys <==> x in Elements(keys);
    if k in items {
      assert items[k := v].Keys == items.Keys;
      ItemsAt(keys, items, k, v);
    } else {
      assert items[k := v].Keys == items.Keys + {k};
      SortedItemsNew(items, keys, InOrder(items[k := v].Keys), k, v);
    }
  }

  lemma {:induction false} ItemsAt(keys: seq<string>, items: map<string, string>, k: string, v: string)
    requires Distinct(keys) && k in keys && forall x :: x in keys ==> x in items
    ensures Items(keys, items[k := v]) == Items(keys, items) <==> v == items[k]
  {
    var init, last := keys[..|keys| - 1], keys[|keys| - 1];
    assert keys == init + [last];
    var a, b := Items(init, items), Items(init, items[k := v]);
    if k == last {
      ItemsElsewhere(init, items, k, v);
      SamePrefix(a + last, v, items[k]);
    } else {
      ItemsAt(init, items, k, v);
      SameSuffix(a + last, b + last, items[last]);
      SameSuffix(a, b, last);
    }
  }

  lemma {:induction false} ItemsElsewhere(keys: seq<string>, items: map<string, string>, k: string, v: string)
    requires k !in keys && forall x :: x in keys ==> x in items
    ensures Items(keys, items[k := v]) == Items(keys, items)
  {
    if keys != [] {
      ItemsElsewhere(keys[..|keys| - 1], items, k, v);
    }
  }

  lemma {:induction false} ItemsJoin(a: seq<string>, b: seq<string>, items: map<string, string>)
    requires forall k :: k in a + b ==> k in items
    ensures (forall k :: k in a ==> k in items) && (forall k :: k in b ==> k in items)
    ensures Items(a + b, items) == Items(a, items) + Items(b, items)
  {
    assert forall k :: k in a || k in b ==> k in a + b;
    if b == [] {
      assert a + b == a;
    } else {
      var init := b[..|b| - 1];
      assert (a + b)[..|a + b| - 1] == a + init;
      ItemsJoin(a, init, items);
    }
  }

  /** Where a new item goes, and what it adds. */
  lemma SortedItemsNew(items: map<string, string>, keys: seq<string>, more: seq<string>, k: string, v: string)
    requires Sorted(keys) && Distinct(keys) && Elements(keys) == items.Keys && k !in items
    requires Sorted(more) && Distinct(more) && Elements(more) == items.Keys + {k}
    ensures (forall x :: x in keys ==> x in items) && (forall x :: x in more ==> x in items[k := v])
    ensures Items(more, items[k := v]) == Items(keys, items) <==> k == "" && v == ""
  {
    assert forall x :: x in keys <==> x in Elements(keys);
    var i := Position(keys, k);
    var a, b := keys[..i], keys[i..];
    SortedUnique(a + [k] + b, more);
    assert keys == a + b;
    ItemsInserted(a, b, items, k, v);
    InsertedNothing(Items(a, items), k + v, Items(b, items));
  }

  lemma InsertedNothing(a: string, x: string, b: string)
    ensures a + x + b == a + b <==> x == ""
  {
    SameSuffix(a + x, a, b);
    assert a + [] == a;
    SamePrefix(a, x, []);
  }

  lemma ItemsInserted(a: seq<string>, b: seq<string>, items: map<string, string>, k: string, v: string)
    requires k !in items && forall x :: x in a + b ==> x in items
    ensures (forall x :: x in a ==> x in items) && (forall x :: x in b ==> x in items)
    ensures forall x :: x in a + [k] + b ==> x in items[k := v]
    ensures Items(a + b, items) == Items(a, items) + Items(b, items)
    ensures Items(a + [k] + b, items[k := v]) == Items(a, items) + (k + v) + Items(b, items)
  {
    ItemsJoin(a, b, items);
    ItemsElsewhere(a, items, k, v);
    ItemsElsewhere(b, items, k, v);
    ItemsJoin(a + [k], b, items[k := v]);
    ItemsSnoc(a, k, items[k := v]);
  }

  lemma ItemsSnoc(a: seq<string>, k: string, items: map<string, string>)
    requires k in items && forall x :: x in a ==> x in items
    ensures (forall x :: x in a + [k] ==> x in items)
    ensures Items(a + [k], items) == Items(a, items) + (k + items[k])
  {
    assert (a + [k])[..|a|] == a;
    assert Items(a, items) + k + items[k] == Items(a, items) + (k + items[k]);
  }

  lemma {:induction false} Position(s: seq<string>, x: string) returns (i: nat)
    requires Sorted(s) && Distinct(s) && x !in s
    ensures i <= |s|
    ensures Sorted(s[..i] + [x] + s[i..]) && Distinct(s[..i] + [x] + s[i..])
    ensures Elements(s[..i] + [x] + s[i..]) == Elements(s) + {x}
  {
    i := 0;
    while i < |s| && Before(s[i], x)
      invariant 0 <= i <= |s|
      invariant forall j :: 0 <= j < i ==> Before(s[j], x)
    {
      i := i + 1;
    }
    forall j | i <= j < |s| ensures Before(x, s[j]) {
      BeforeTotal(s[i], x);
      if i < j {
        BeforeTransitive(x, s[i], s[j]);
      }
    }
    Inserted(s, i, x, s[..i] + [x] + s[i..]);
  }

  /** A change of a node pool is seen if that of the pool's own input is. */
  lemma PoolsHashed(c: Cluster, i: nat, p: NodePoolDesc)
    requires i < |c.nodePools|
    ensures HashInput(c.(nodePools := c.nodePools[i := p])) == HashInput(c) <==>
      PoolInput(p) == PoolInput(c.nodePools[i])
  {
    var inputs := PoolInputs(c.nodePools);
    assert PoolInputs(c.nodePools[i := p]) == inputs[i := PoolInput(p)];
    JoinedAt(inputs, i, PoolInput(p));
    PartHashed(c, c.(nodePools := c.nodePools[i := p]), 11);
  }

  /** A change of any one of the fields of a node pool changes its input; that of the instance
      types only if they read differently without the boundaries between them. */
  lemma PoolFieldsHashed(p: NodePoolDesc, x: string, size: int, types: seq<string>, k: string, v: string)
    ensures PoolInput(p.(name := x)) == PoolInput(p) <==> x == p.name
    ensures PoolInput(p.(profile := x)) == PoolInput(p) <==> x == p.profile
    ensures PoolInput(p.(discountStrategy := x)) == PoolInput(p) <==> x == p.discountStrategy
    ensures PoolInput(p.(instanceTypes := types)) == PoolInput(p) <==> Joined(types) == Joined(p.instanceTypes)
    ensures Int64(size) && Int64(p.minSize) ==> (PoolInput(p.(minSize := size)) == PoolInput(p) <==> size == p.minSize)
    ensures Int64(size) && Int64(p.maxSize) ==> (PoolInput(p.(maxSize := size)) == PoolInput(p) <==> size == p.maxSize)
    ensures PoolInput(p.(configItems := p.configItems[k := v])) == PoolInput(p) <==>
      if k in p.configItems then v == p.configItems[k] else k == "" && v == ""
  {
    PoolPartHashed(p, p.(name := x), 0);
    PoolPartHashed(p, p.(profile := x), 1);
    PoolPartHashed(p, p.(instanceTypes := types), 2);
    PoolPartHashed(p, p.(discountStrategy := x), 3);
    PoolPartHashed(p, p.(minSize := size), 4);
    PoolPartHashed(p, p.(maxSize := size), 5);
    PoolPartHashed(p, p.(configItems := p.configItems[k := v]), 6);
    SortedItemsChange(p.configItems, k, v);
    SizeHashed(size, p.minSize);
    SizeHashed(size, p.maxSize);
  }

  lemma SizeHashed(x: int, y: int)
    ensures Int64(x) && Int64(y) ==> (LittleEndian(x, INT64_BYTES) == LittleEndian(y, INT64_BYTES) <==> x == y)
  {
    if Int64(x) && Int64(y) {
      assert Power256(4) == 0x1_0000_0000;
      assert Power256(8) == 0x1_0000_0000_0000_0000;
      LittleEndianInjective(x, y, INT64_BYTES);
    }
  }

  ghost function PoolPart(p: NodePoolDesc, i: nat): string {
    PoolPartOf(p, SortedItems(p.configItems), i)
  }

  function PoolPartOf(p: NodePoolDesc, items: string, i: nat): string {
    match i
    case 0 => p.name
    case 1 => p.profile
    case 2 => Joined(p.instanceTypes)
    case 3 => p.discountStrategy
    case 4 => LittleEndian(p.minSize, INT64_BYTES)
    case 5 => LittleEndian(p.maxSize, INT64_BYTES)
    case _ => items
  }

  /** Node pools that differ in one part only. */
  ghost predicate PoolsDifferIn(i: nat, p: NodePoolDesc, q: NodePoolDesc) {
    && (i == 0 || q.name == p.name) && (i == 1 || q.profile == p.profile)
    && (i == 2 || q.instanceTypes == p.instanceTypes) && (i == 3 || q.discountStrategy == p.discountStrategy)
    && (i == 4 || q.minSize == p.minSize) && (i == 5 || q.maxSize == p.maxSize)
    && (i == 6 || q.configItems == p.configItems)
  }

  lemma PoolPartHashed(p: NodePoolDesc, q: NodePoolDesc, i: nat)
    requires i < 7 && PoolsDifferIn(i, p, q)
    ensures PoolInput(q) == PoolInput(p) <==> PoolPart(q, i) == PoolPart(p, i)
  {
    var items, items' := SortedItems(p.configItems), SortedItems(q.configItems);
    PoolPartsReplaced(p, items, q, items', i);
    JoinedAt(PoolParts(p, items), i, PoolPartOf(q, items', i));
  }

  lemma PoolPartsReplaced(p: NodePoolDesc, items: string, q: NodePoolDesc, items': string, i: nat)
    requires i < 7 && PoolsDifferIn(i, p, q) && (i == 6 || items' == items)
    ensures PoolParts(q, items') == PoolParts(p, items)[i := PoolPartOf(q, items', i)]
    ensures PoolParts(p, items)[i] == PoolPartOf(p, items, i)
  {
    var s, t := PoolParts(p, items), PoolParts(q, items');
    forall j | 0 <= j < 7 ensures t[j] == s[i := PoolPartOf(q, items', i)][j] {
      PoolPartsAre(p, items, j);
      PoolPartsAre(q, items', j);
      assert j != i ==> PoolPartOf(q, items', j) == PoolPartOf(p, items, j);
    }
    PoolPartsAre(p, items, i);
  }

  lemma PoolPartsAre(p: NodePoolDesc, items: string, i: nat)
    requires i < 7
    ensures PoolParts(p, items)[i] == PoolPartOf(p, items, i)
  {
  }

  /** But the hash does not see where one field ends and the next begins: different clusters
      can have the same. */
  lemma BoundariesNotHashed(c: Cluster, a: string, b: string, d: string)
    ensures HashInput(c.(id := a + b, account := d)) == HashInput(c.(id := a, account := b + d))
    ensures b != "" ==> c.(id := a + b, account := d) != c.(id := a, account := b + d)
  {
    PartsShifted(c, SortedItems(c.configItems), PoolsInput(c.nodePools), a, b, d);
    assert b != "" ==> |a + b| != |a|;
  }

  /** Nor where a key ends and its value begins. */
  lemma ItemBoundariesNotHashed(a: string, b: string, d: string)
    ensures SortedItems(map[a := b + d]) == SortedItems(map[a + b := d])
  {
    SingleItem(a, b + d);
    SingleItem(a + b, d);
    assert a + b + d == a + (b + d);
  }

  lemma PartsShifted(c: Cluster, items: string, pools: string, a: string, b: string, d: string)
    ensures Joined(ClusterParts(c.(id := a + b, account := d), items, pools)) ==
            Joined(ClusterParts(c.(id := a, account := b + d), items, pools))
  {
    var e, f := c.(id := a + b, account := d), c.(id := a, account := b + d);
    var x, y := ClusterParts(e, items, pools), ClusterParts(f, items, pools);
    forall i | 2 <= i < 12 ensures x[i] == y[i] {
      ClusterPartsAre(e, items, pools, i);
      ClusterPartsAre(f, items, pools, i);
    }
    assert a + b + d == a + (b + d);
    JoinedPair(x, y, 12);
  }

  lemma {:induction false} JoinedPair(x: seq<string>, y: seq<string>, n: nat)
    requires 2 <= n <= |x| && n <= |y| && x[0] + x[1] == y[0] + y[1] && forall i :: 2 <= i < n ==> x[i] == y[i]
    ensures Joined(x[..n]) == Joined(y[..n])
    ensures n == |x| == |y| ==> Joined(x) == Joined(y)
  {
    assert x[..n][..n - 1] == x[..n - 1] && y[..n][..n - 1] == y[..n - 1];
    if n == 2 {
      assert x[..1][..0] == [] && y[..1][..0] == [];
      assert Joined(x[..1]) == x[0] && Joined(y[..1]) == y[0];
    } else {
      JoinedPair(x, y, n - 1);
    }
    assert n == |x| == |y| ==> x[..n] == x && y[..n] == y;
  }

  lemma SingleItem(k: string, v: string)
    ensures SortedItems(map[k := v]) == k + v
  {
    var items := map[k := v];
    assert Elements([k]) == {k} == items.Keys;
    SortedUnique([k], InOrder(items.Keys));
    assert [k][..0] == [];
    assert Items([k], items) == Items([], items) + k + v;
  }
}
