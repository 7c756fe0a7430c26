/** Choosing one subnet for each availability zone. */
module Subnets {
  import opened Strings

  datatype Subnet = Subnet(zone: string, id: string, tags: map<string, string>, cidr: string, ipv6Cidrs: seq<string>)

  datatype SubnetInfo = SubnetInfo(id: string, cidr: string, ipv6Cidrs: seq<string>)

  /** a is at least as good as b: tagged subnets are preferred, then the lesser ID. */
  predicate Preferred(tag: string, a: Subnet, b: Subnet) {
    if (tag in a.tags) != (tag in b.tags) then tag in a.tags else Before(a.id, b.id)
  }

  ghost predicate Best(tag: string, subnets: seq<Subnet>, zone: string, best: Subnet) {
    best in subnets && best.zone == zone && forall s :: s in subnets && s.zone == zone ==> Preferred(tag, best, s)
  }

  /** For every zone that occurs, and no other, the best subnet. */
  ghost predicate Choice(tag: string, subnets: seq<Subnet>, byZone: map<string, Subnet>) {
    && (forall s :: s in subnets ==> s.zone in byZone)
    && (forall z :: z in byZone ==> Best(tag, subnets, z, byZone[z]))
  }

  function Info(s: Subnet): SubnetInfo {
    SubnetInfo(s.id, s.cidr, s.ipv6Cidrs)
  }

  ghost predicate Describes(info: SubnetInfo, s: Subnet) {
    info.id == s.id && info.cidr == s.cidr && info.ipv6Cidrs == s.ipv6Cidrs
  }

  /** The data of the best subnet for every zone that occurs, and no other. */
  ghost predicate Selected(tag: string, subnets: seq<Subnet>, r: map<string, SubnetInfo>) {
    && (forall s :: s in subnets ==> s.zone in r)
    && (forall z :: z in r ==> exists best :: Best(tag, subnets, z, best) && Describes(r[z], best))
  }

  /** `selectSubnetIDs`. */
  method SelectSubnetIDs(subnets: seq<Subnet>, tag: string) returns (r: map<string, SubnetInfo>)
    ensures Selected(tag, subnets, r)
  {
    var byZone: map<string, Subnet> := map[];
    for i := 0 to |subnets|
      invariant Choice(tag, subnets[..i], byZone)
    {
      var subnet := subnets[i];
      assert subnets[..i + 1] == subnets[..i] + [subnet];
      if subnet.zone !in byZone {
        ChooseNew(tag, subnets[..i], byZone, subnet);
        byZone := byZone[subnet.zone := subnet];
        continue;
      }
      var existing := byZone[subnet.zone];
      ChooseBetter(tag, subnets[..i], byZone, subnet);
      if (tag in existing.tags) != (tag in subnet.tags) {
        if tag in subnet.tags {
          byZone := byZone[subnet.zone := subnet];
        }
        continue;
      }
      if !Before(existing.id, subnet.id) {
        byZone := byZone[subnet.zone := subnet];
      }
    }
    assert subnets[..|subnets|] == subnets;
    r := map z | z in byZone :: Info(byZone[z]);
    assert forall z :: z in r ==> Best(tag, subnets, z, byZone[z]) && Describes(r[z], byZone[z]);
  }

  lemma PreferredOrder(tag: string, a: Subnet, b: Subnet, c: Subnet)
    ensures Preferred(tag, a, a)
    ensures Preferred(tag, a, b) || Preferred(tag, b, a)
    ensures Preferred(tag, a, b) && Preferred(tag, b, c) ==> Preferred(tag, a, c)
    ensures Preferred(tag, a, b) && Preferred(tag, b, a) ==> a.id == b.id
  {
    BeforeReflexive(a.id);
    BeforeTotal(a.id, b.id);
    if Before(a.id, b.id) && Before(b.id, c.id) {
      BeforeTransitive(a.id, b.id, c.id);
    }
  }

  lemma ChooseNew(tag: string, subnets: seq<Subnet>, byZone: map<string, Subnet>, s: Subnet)
    requires Choice(tag, subnets, byZone) && s.zone !in byZone
    ensures Choice(tag, subnets + [s], byZone[s.zone := s])
  {
    PreferredOrder(tag, s, s, s);
    var all, chosen := subnets + [s], byZone[s.zone := s];
    forall z | z in chosen ensures Best(tag, all, z, chosen[z]) {
      if z != s.zone {
        assert Best(tag, subnets, z, byZone[z]);
      }
    }
  }

  lemma ChooseBetter(tag: string, subnets: seq<Subnet>, byZone: map<string, Subnet>, s: Subnet)
    requires Choice(tag, subnets, byZone) && s.zone in byZone
    ensures Preferred(tag, byZone[s.zone], s) ==> Choice(tag, subnets + [s], byZone)
    ensures !Preferred(tag, byZone[s.zone], s) ==> Choice(tag, subnets + [s], byZone[s.zone := s])
  {
    var all, best := subnets + [s], byZone[s.zone];
    assert Best(tag, subnets, s.zone, best);
    PreferredOrder(tag, s, s, s);
    PreferredOrder(tag, best, s, s);
    forall t | t in subnets && t.zone == s.zone && Preferred(tag, s, best) ensures Preferred(tag, s, t) {
      PreferredOrder(tag, s, best, t);
    }
    forall z | z in byZone && z != s.zone ensures Best(tag, all, z, byZone[z]) {
      assert Best(tag, subnets, z, byZone[z]);
    }
  }

  /** The choice is the lexicographically least of the tagged subnets of the zone if there
      are any, and of all its subnets otherwise. */
  lemma BestIsLeast(tag: string, subnets: seq<Subnet>, zone: string, best: Subnet)
    ensures Best(tag, subnets, zone, best) <==>
      && best in subnets && best.zone == zone
      && (tag in best.tags <==> exists s :: s in subnets && s.zone == zone && tag in s.tags)
      && (forall s :: s in subnets && s.zone == zone && (tag in s.tags <==> tag in best.tags) ==> Before(best.id, s.id))
  {
    if Best(tag, subnets, zone, best) {
      if s :| s in subnets && s.zone == zone && tag in s.tags {
        assert Preferred(tag, best, s);
      }
    }
  }

  /** With distinct IDs the order of the subnets does not matter. */
  lemma OrderIrrelevant(tag: string, a: seq<Subnet>, b: seq<Subnet>, x: map<string, SubnetInfo>,
                        y: map<string, SubnetInfo>)
    requires forall s, t :: s in a && t in a && s.id == t.id ==> s == t
    requires Elements(a) == Elements(b) && Selected(tag, a, x) && Selected(tag, b, y)
    ensures x == y
  {
    assert forall s :: s in a <==> s in Elements(a);
    assert forall s :: s in b <==> s in Elements(b);
    forall z | z in x ensures z in y && x[z] == y[z] {
      var p :| Best(tag, a, z, p) && Describes(x[z], p);
      var q :| Best(tag, b, z, q) && Describes(y[z], q);
      PreferredOrder(tag, p, q, q);
    }
    forall z | z in y ensures z in x {
      var q :| Best(tag, b, z, q) && Describes(y[z], q);
    }
  }
}
