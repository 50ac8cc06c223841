/** The query for the duplicated tenants has no ORDER BY.  Whether some order lets a marked tenant survive the
    clean-up, told from the tenants and rows alone. */
module TenantOrders {
  import opened Collections
  import opened TenantMerge
  import opened TenantCleanup

  // ---- crossing groups ----

  /** Both tenants hold the same value. */
  predicate Mates(column: Column, t: Tenant, u: Tenant) {
    Value(column, t).Some? && Value(column, t) == Value(column, u)
  }

  /** Tenant `t` shares its EBS number, but not its org id, with `e`, and its org id, but not its EBS number,
      with `m`. */
  ghost predicate Crosses(ts: seq<Tenant>, e: Tenant, t: Tenant, m: Tenant) {
    && e in ts && t in ts && m in ts
    && Mates(ExternalTenant, t, e) && !Mates(OrgId, t, e)
    && Mates(OrgId, t, m) && !Mates(ExternalTenant, t, m)
  }

  /** The tenant, or one with its EBS number, owns a row. */
  ghost predicate RowsAround(ts: seq<Tenant>, tables: Tables, m: Tenant) {
    exists u: Table, r :: r in tables[u] && IsAround(ts, m, r.tenantId)
  }

  ghost predicate IsAround(ts: seq<Tenant>, m: Tenant, id: int) {
    id == m.id || exists x :: x in ts && x.id == id && Mates(ExternalTenant, x, m)
  }

  /** The merge in this order marks the tenant, and the clean-up then keeps it. */
  ghost predicate Survives(tables: Tables, scan: seq<Tenant>, t: Tenant) {
    TenantMerge.Processed(MergedTenant(scan, t)) && Kept(MergedTables(scan, tables))(MergedTenant(scan, t))
  }

  // ---- a survivor crosses ----

  lemma HeadIs(scan: seq<Tenant>, column: Column, name: string)
    requires UniqueIds(scan) && name in GroupsOf(scan, column)
    ensures Filter(scan, HasValue(column, name)) != []
    ensures GroupsOf(scan, column)[name] == Filter(scan, HasValue(column, name))
  {
    GroupsAreWellFormed(scan, column);
    GroupIs(scan, column, name);
  }

  /** The head of an EBS group cannot share the org id of a member that heads its own org group. */
  lemma HeadsDiffer(scan: seq<Tenant>, n: string, i: nat, name: string)
    requires UniqueIds(scan) && n in GroupsOf(scan, ExternalTenant) && 0 < i < |GroupsOf(scan, ExternalTenant)[n]|
    requires name in GroupsOf(scan, OrgId) && GroupsOf(scan, OrgId)[name] != []
    requires GroupsOf(scan, OrgId)[name][0] == GroupsOf(scan, ExternalTenant)[n][i]
    ensures Value(OrgId, GroupsOf(scan, ExternalTenant)[n][0]) != Some(name)
  {
    var groups: Groups := GroupsOf(scan, ExternalTenant);
    GroupsAreWellFormed(scan, ExternalTenant);
    HeadIs(scan, ExternalTenant, n);
    HeadIs(scan, OrgId, name);
    GroupMember(scan, ExternalTenant, n, i);
    assert MemberAt(groups, n, 0, groups[n][0].id) && MemberAt(groups, n, i, groups[n][i].id);
    if Value(OrgId, groups[n][0]) == Some(name) {
      HeadsAgree(scan, HasValue(ExternalTenant, n), HasValue(OrgId, name));
    }
  }

  lemma ReachedIsAround(ts: seq<Tenant>, scan: seq<Tenant>, m: Tenant, id: int)
    requires UniqueIds(ts) && ScanOf(ts, scan) && m in ts
    requires MainTenant(GroupsOf(scan, ExternalTenant), id) == m.id
    ensures IsAround(ts, m, id)
  {
    var groups := GroupsOf(scan, ExternalTenant);
    if name, i: nat :| i > 0 && MemberAt(groups, name, i, id) {
      GroupsAreWellFormed(scan, ExternalTenant);
      MainTenantAt(groups, ExternalTenant, name, i, id);
      GroupMember(scan, ExternalTenant, name, i);
      GroupMember(scan, ExternalTenant, name, 0);
      SameIdSameTenant(ts, groups[name][0], m);
      assert Mates(ExternalTenant, groups[name][i], m);
    }
  }

  /** A tenant that rows reach is no EBS duplicate, so it can only share the EBS number of a marked tenant as
      the head of its group. */
  lemma ReachedIsHead(ts: seq<Tenant>, scan: seq<Tenant>, n: string, m: Tenant, id: int)
    requires UniqueIds(ts) && NoEmpties(ts) && ScanOf(ts, scan) && m in scan && Value(ExternalTenant, m) == Some(n)
    requires MainTenant(GroupsOf(scan, ExternalTenant), id) == m.id
    ensures n in GroupsOf(scan, ExternalTenant) && GroupsOf(scan, ExternalTenant)[n] != []
    ensures GroupsOf(scan, ExternalTenant)[n][0] == m
  {
    var groups := GroupsOf(scan, ExternalTenant);
    GroupsAreWellFormed(scan, ExternalTenant);
    MainIsNoDuplicate(groups, ExternalTenant, id);
    assert NameOf(ExternalTenant)(m) == n;
    var l :| 0 <= l < |groups[n]| && groups[n][l] == m;
    MainTenantAt(groups, ExternalTenant, n, l, m.id);
  }

  lemma PlacesCross(ts: seq<Tenant>, scan: seq<Tenant>, n: string, i: nat, name: string, k: nat, id: int)
    requires UniqueIds(ts) && NoEmpties(ts) && ScanOf(ts, scan)
    requires n in GroupsOf(scan, ExternalTenant) && 0 < i < |GroupsOf(scan, ExternalTenant)[n]|
    requires name in GroupsOf(scan, OrgId) && 0 < k < |GroupsOf(scan, OrgId)[name]|
    requires GroupsOf(scan, OrgId)[name][0] == GroupsOf(scan, ExternalTenant)[n][i]
    requires MainTenant(GroupsOf(scan, ExternalTenant), id) == GroupsOf(scan, OrgId)[name][k].id
    ensures var same, org := GroupsOf(scan, ExternalTenant)[n], GroupsOf(scan, OrgId)[name];
            Crosses(ts, same[0], same[i], org[k]) && IsAround(ts, org[k], id)
  {
    var m := GroupsOf(scan, OrgId)[name][k];
    GroupMember(scan, ExternalTenant, n, 0);
    GroupMember(scan, ExternalTenant, n, i);
    GroupMember(scan, OrgId, name, 0);
    GroupMember(scan, OrgId, name, k);
    HeadsDiffer(scan, n, i, name);
    if Value(ExternalTenant, m) == Some(n) {
      ReachedIsHead(ts, scan, n, m, id);
    }
    ReachedIsAround(ts, scan, m, id);
  }

  lemma SurvivorCrosses(ts: seq<Tenant>, tables: Tables, scan: seq<Tenant>, t: Tenant) returns (e: Tenant, m: Tenant)
    requires UniqueIds(ts) && NoEmpties(ts) && ScanOf(ts, scan) && t in ts && !TenantMerge.Processed(t)
    requires Survives(tables, scan, t)
    ensures Crosses(ts, e, t, m) && RowsAround(ts, tables, m)
  {
    SurvivorsInherit(ts, tables, scan, t);
    var n, i: nat :| i > 0 && MemberAt(GroupsOf(scan, ExternalTenant), n, i, t.id);
    var name, k: nat, other :| && k > 0 && MemberAt(GroupsOf(scan, OrgId), name, k, other)
                               && GroupsOf(scan, OrgId)[name][0].id == t.id && RowsReach(tables, scan, other);
    var u: Table, r :| r in tables[u] && MainTenant(GroupsOf(scan, ExternalTenant), r.tenantId) == other;
    e, m := GroupsOf(scan, ExternalTenant)[n][0], GroupsOf(scan, OrgId)[name][k];
    MemberIs(ts, scan, ExternalTenant, n, i, t);
    MemberIs(ts, scan, OrgId, name, 0, t);
    PlacesCross(ts, scan, n, i, name, k, r.tenantId);
  }

  lemma MemberIs(ts: seq<Tenant>, scan: seq<Tenant>, column: Column, name: string, i: nat, t: Tenant)
    requires UniqueIds(ts) && ScanOf(ts, scan) && t in ts && MemberAt(GroupsOf(scan, column), name, i, t.id)
    ensures GroupsOf(scan, column)[name][i] == t
  {
    GroupMember(scan, column, name, i);
    SameIdSameTenant(ts, GroupsOf(scan, column)[name][i], t);
  }

  // ---- an order in which a crossing tenant survives ----

  function IsNoneOf(e: Tenant, t: Tenant, m: Tenant): Tenant -> bool {
    (x: Tenant) => x != e && x != t && x != m
  }

  /** The duplicated tenants, with these three first. */
  function Order(ts: seq<Tenant>, e: Tenant, t: Tenant, m: Tenant): seq<Tenant> {
    [e, t, m] + Filter(Filter(ts, Duplicated(ts)), IsNoneOf(e, t, m))
  }

  lemma MatesAreDuplicated(ts: seq<Tenant>, column: Column, t: Tenant, u: Tenant)
    requires t in ts && u in ts && t != u && Mates(column, t, u)
    ensures Duplicated(ts)(t) && Duplicated(ts)(u)
  {
    var i :| 0 <= i < |ts| && ts[i] == t;
    var j :| 0 <= j < |ts| && ts[j] == u;
    var p := HasValue(column, Value(column, t).value);
    if i < j {
      CountTwo(ts, p, i, j);
    } else {
      CountTwo(ts, p, j, i);
    }
    assert SharesValue(ts, column, t) && SharesValue(ts, column, u);
  }

  lemma CrossingAreDifferent(ts: seq<Tenant>, e: Tenant, t: Tenant, m: Tenant)
    requires UniqueIds(ts) && Crosses(ts, e, t, m)
    ensures e.id != t.id && e.id != m.id && t.id != m.id
  {
    assert e != t && e != m && t != m;
  }

  lemma OrderIsUnique(ts: seq<Tenant>, e: Tenant, t: Tenant, m: Tenant)
    requires UniqueIds(ts) && Crosses(ts, e, t, m)
    ensures UniqueIds(Order(ts, e, t, m))
  {
    var found := Filter(ts, Duplicated(ts));
    CrossingAreDifferent(ts, e, t, m);
    FilterKeepsUnique(ts, Duplicated(ts));
    FilterKeepsUnique(found, IsNoneOf(e, t, m));
    forall x | x in Filter(found, IsNoneOf(e, t, m)) ensures x.id != e.id && x.id != t.id && x.id != m.id {
      assert x in found && x in ts;
    }
  }

  lemma OrderIsScan(ts: seq<Tenant>, e: Tenant, t: Tenant, m: Tenant)
    requires UniqueIds(ts) && Crosses(ts, e, t, m)
    ensures ScanOf(ts, Order(ts, e, t, m))
  {
    CrossingAreDifferent(ts, e, t, m);
    MatesAreDuplicated(ts, ExternalTenant, t, e);
    MatesAreDuplicated(ts, OrgId, t, m);
    OrderIsUnique(ts, e, t, m);
    var rest := Filter(Filter(ts, Duplicated(ts)), IsNoneOf(e, t, m));
    assert forall x :: x in Order(ts, e, t, m) <==> x in [e, t, m] || x in rest;
  }

  /** In that order the EBS number leads with `e` and the org id with `t`. */
  lemma LeadersOfOrder(ts: seq<Tenant>, e: Tenant, t: Tenant, m: Tenant)
    requires UniqueIds(ts) && NoEmpties(ts) && Crosses(ts, e, t, m)
    ensures var scan := Order(ts, e, t, m);
            var n, name := Value(ExternalTenant, t).value, Value(OrgId, t).value;
            && n in GroupsOf(scan, ExternalTenant) && GroupsOf(scan, ExternalTenant)[n] != []
            && GroupsOf(scan, ExternalTenant)[n][0] == e
            && name in GroupsOf(scan, OrgId) && GroupsOf(scan, OrgId)[name] != [] && GroupsOf(scan, OrgId)[name][0] == t
  {
    var scan := Order(ts, e, t, m);
    var n, name := Value(ExternalTenant, t).value, Value(OrgId, t).value;
    FirstIsHead(scan, HasValue(ExternalTenant, n), 0);
    FirstIsHead(scan, HasValue(OrgId, name), 1);
    GroupIs(scan, ExternalTenant, n);
    GroupIs(scan, OrgId, name);
  }

  lemma LeaderGets(scan: seq<Tenant>, v: string, m: Tenant, x: Tenant)
    requires UniqueIds(scan) && v != "" && x in scan && Value(ExternalTenant, x) == Some(v)
    requires Filter(scan, HasValue(ExternalTenant, v)) != [] && Filter(scan, HasValue(ExternalTenant, v))[0] == m
    ensures MainTenant(GroupsOf(scan, ExternalTenant), x.id) == m.id
  {
    var groups := GroupsOf(scan, ExternalTenant);
    GroupIs(scan, ExternalTenant, v);
    GroupsAreWellFormed(scan, ExternalTenant);
    assert x in Filter(scan, HasValue(ExternalTenant, v));
    var l :| 0 <= l < |groups[v]| && groups[v][l] == x;
    MainTenantAt(groups, ExternalTenant, v, l, x.id);
  }

  lemma NamelessStays(ts: seq<Tenant>, scan: seq<Tenant>, m: Tenant)
    requires UniqueIds(ts) && ScanOf(ts, scan) && m in ts && Value(ExternalTenant, m).None?
    ensures MainTenant(GroupsOf(scan, ExternalTenant), m.id) == m.id
  {
    var groups := GroupsOf(scan, ExternalTenant);
    if name, i: nat :| i > 0 && MemberAt(groups, name, i, m.id) {
      GroupMember(scan, ExternalTenant, name, i);
      MemberIs(ts, scan, ExternalTenant, name, i, m);
    }
  }

  /** In that order `m` keeps its rows, and gets those of the tenants with its EBS number. */
  lemma RowsReachInOrder(ts: seq<Tenant>, e: Tenant, t: Tenant, m: Tenant, id: int)
    requires UniqueIds(ts) && NoEmpties(ts) && Crosses(ts, e, t, m) && IsAround(ts, m, id)
    ensures MainTenant(GroupsOf(Order(ts, e, t, m), ExternalTenant), id) == m.id
  {
    var scan := Order(ts, e, t, m);
    OrderIsScan(ts, e, t, m);
    if Value(ExternalTenant, m).None? {
      NamelessStays(ts, scan, m);
    } else {
      var v := Value(ExternalTenant, m).value;
      var x :| x in ts && x.id == id && Value(ExternalTenant, x) == Some(v);
      ThirdLeads(ts, e, t, m);
      if x != m {
        MatesAreDuplicated(ts, ExternalTenant, x, m);
      }
      LeaderGets(scan, v, m, x);
    }
  }

  lemma ThirdLeads(ts: seq<Tenant>, e: Tenant, t: Tenant, m: Tenant)
    requires Crosses(ts, e, t, m) && Value(ExternalTenant, m).Some?
    ensures var p := HasValue(ExternalTenant, Value(ExternalTenant, m).value);
            Filter(Order(ts, e, t, m), p) != [] && Filter(Order(ts, e, t, m), p)[0] == m
  {
    FirstIsHead(Order(ts, e, t, m), HasValue(ExternalTenant, Value(ExternalTenant, m).value), 2);
  }

  lemma MemberAfterHead(scan: seq<Tenant>, column: Column, name: string, head: Tenant, t: Tenant) returns (i: nat)
    requires UniqueIds(scan) && t in scan && name != "" && Value(column, t) == Some(name) && t != head
    requires name in GroupsOf(scan, column) && GroupsOf(scan, column)[name] != []
             && GroupsOf(scan, column)[name][0] == head
    ensures i > 0 && MemberAt(GroupsOf(scan, column), name, i, t.id)
  {
    GroupIs(scan, column, name);
    assert t in Filter(scan, HasValue(column, name));
    i :| 0 <= i < |GroupsOf(scan, column)[name]| && GroupsOf(scan, column)[name][i] == t;
  }

  lemma CrossingSurvives(ts: seq<Tenant>, tables: Tables, e: Tenant, t: Tenant, m: Tenant)
    requires UniqueIds(ts) && NoEmpties(ts) && !TenantMerge.Processed(t)
    requires Crosses(ts, e, t, m) && RowsAround(ts, tables, m)
    ensures ScanOf(ts, Order(ts, e, t, m)) && Survives(tables, Order(ts, e, t, m), t)
  {
    var scan := Order(ts, e, t, m);
    OrderIsScan(ts, e, t, m);
    LeadersOfOrder(ts, e, t, m);
    CrossingAreDifferent(ts, e, t, m);
    assert scan[1] == t && scan[2] == m;
    var i := MemberAfterHead(scan, ExternalTenant, Value(ExternalTenant, t).value, e, t);
    var k := MemberAfterHead(scan, OrgId, Value(OrgId, t).value, t, m);
    var u: Table, r :| r in tables[u] && IsAround(ts, m, r.tenantId);
    RowsReachInOrder(ts, e, t, m, r.tenantId);
    assert RowsReach(tables, scan, m.id);
    SurvivorsInherit(ts, tables, scan, t);
  }

  /** Some order of the scan leaves a marked tenant after the clean-up, if and only if some tenant shares its
      EBS number with one that has not its org id, and its org id with one that has not its EBS number,
      where the latter or a tenant of its EBS number owns a row. */
  lemma SomeOrderLeavesMarkedIff(ts: seq<Tenant>, tables: Tables)
    requires UniqueIds(ts) && NoEmpties(ts) && forall t :: t in ts ==> !TenantMerge.Processed(t)
    ensures (exists scan, t :: ScanOf(ts, scan) && t in ts && Survives(tables, scan, t))
            <==> (exists e, t, m :: Crosses(ts, e, t, m) && RowsAround(ts, tables, m))
  {
    if scan, t :| ScanOf(ts, scan) && t in ts && Survives(tables, scan, t) {
      var e, m := SurvivorCrosses(ts, tables, scan, t);
    }
    if e, t, m :| Crosses(ts, e, t, m) && RowsAround(ts, tables, m) {
      CrossingSurvives(ts, tables, e, t, m);
    }
  }
}
