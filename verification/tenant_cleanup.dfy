/** What the tenant migrations promise together: merge, unique indexes, clean-up. */
module TenantCleanup {
  import opened Collections
  import opened TenantMarks
  import opened TenantMerge

  ghost predicate Shares(ts: seq<Tenant>, column: Column, a: int, b: int) {
    a == b || exists t, u :: t in ts && u in ts && t.id == a && u.id == b
                             && Value(column, t).Some? && Value(column, t) == Value(column, u)
  }

  lemma GroupMember(scan: seq<Tenant>, column: Column, name: string, i: nat)
    requires name in GroupsOf(scan, column) && i < |GroupsOf(scan, column)[name]|
    ensures var t := GroupsOf(scan, column)[name][i]; t in scan && Value(column, t) == Some(name)
  {
    var named, groups := Filter(scan, Named(column)), GroupsOf(scan, column);
    GroupByIsFilter(named, NameOf(column), name);
    assert groups[name][i] in Bucket(groups, name);
  }

  lemma MatesShare(ts: seq<Tenant>, scan: seq<Tenant>, column: Column, name: string, i: nat)
    requires ScanOf(ts, scan) && name in GroupsOf(scan, column) && i < |GroupsOf(scan, column)[name]|
    ensures var group := GroupsOf(scan, column)[name];
            Shares(ts, column, group[i].id, group[0].id) && TenantExists(ts, group[0].id)
  {
    GroupMember(scan, column, name, i);
    GroupMember(scan, column, name, 0);
  }

  lemma MainShares(ts: seq<Tenant>, scan: seq<Tenant>, column: Column, id: int)
    requires ScanOf(ts, scan)
    ensures Shares(ts, column, id, MainTenant(GroupsOf(scan, column), id))
    ensures IsDuplicate(GroupsOf(scan, column), id) ==> TenantExists(ts, MainTenant(GroupsOf(scan, column), id))
  {
    var groups := GroupsOf(scan, column);
    if name, i :| i > 0 && MemberAt(groups, name, i, id) {
      MatesShare(ts, scan, column, name, i);
      GroupsAreWellFormed(scan, column);
      MainTenantAt(groups, column, name, i, id);
    }
  }

  /** Rows never leave their connected component: from the old owner to the new one there is a tenant
      with the EBS number of the first and the org id of the second. */
  lemma RowsStayConnected(ts: seq<Tenant>, scan: seq<Tenant>, id: int)
    requires ScanOf(ts, scan)
    ensures exists middle :: Shares(ts, ExternalTenant, id, middle) && Shares(ts, OrgId, middle, Owner(scan, id))
  {
    var middle := MainTenant(GroupsOf(scan, ExternalTenant), id);
    MainShares(ts, scan, ExternalTenant, id);
    MainShares(ts, scan, OrgId, middle);
  }

  // ---- the unique indexes ----

  /** `CREATE UNIQUE INDEX` succeeds: NULLs aside, no value occurs twice. */
  predicate IndexCanBeBuilt(ts: seq<Tenant>, column: Column) {
    forall i, j :: 0 <= i < j < |ts| && Value(column, ts[i]).Some? ==> Value(column, ts[i]) != Value(column, ts[j])
  }

  /** A value that several tenants share is marked with the counters 1 up to their number less one, whatever
      the order; some tenant holds such a text already. */
  ghost predicate HoldsMark(ts: seq<Tenant>, column: Column) {
    exists t, value, i: nat :: t in ts && IsMarkIn(ts, column, t, value, i)
  }

  predicate IsMarkIn(ts: seq<Tenant>, column: Column, t: Tenant, value: string, i: nat) {
    0 < i < Count(ts, HasValue(column, value)) && Value(column, t) == Some(Mark(value, i))
  }

  /** No tenant that keeps its value in this order holds a text that the merge hands out as a mark. */
  ghost predicate NoForgedMark(ts: seq<Tenant>, groups: Groups, column: Column) {
    forall t, u :: t in ts && u in ts && !IsDuplicate(groups, t.id) && IsDuplicate(groups, u.id) ==>
      Value(column, t) != Some(MarkOf(groups, u.id))
  }

  lemma TwinsAreGrouped(ts: seq<Tenant>, scan: seq<Tenant>, column: Column, i: nat, j: nat)
    requires UniqueIds(ts) && NoEmpties(ts) && ScanOf(ts, scan)
    requires i < j < |ts| && Value(column, ts[i]).Some? && Value(column, ts[i]) == Value(column, ts[j])
    ensures var groups, name := GroupsOf(scan, column), Value(column, ts[i]).value;
            name in groups && ts[i] in groups[name] && ts[j] in groups[name]
  {
    CountTwo(ts, HasValue(column, Value(column, ts[i]).value), i, j);
    assert ts[i] in scan && ts[j] in scan;
    GroupsAreWellFormed(scan, column);
  }

  /** Of two tenants with the same value, the scan finds both, so one of them is a duplicate. */
  lemma OneIsDuplicate(ts: seq<Tenant>, scan: seq<Tenant>, column: Column, i: nat, j: nat)
    requires UniqueIds(ts) && NoEmpties(ts) && ScanOf(ts, scan)
    requires i < j < |ts| && Value(column, ts[i]).Some? && Value(column, ts[i]) == Value(column, ts[j])
    ensures IsDuplicate(GroupsOf(scan, column), ts[i].id) || IsDuplicate(GroupsOf(scan, column), ts[j].id)
  {
    var groups, name := GroupsOf(scan, column), Value(column, ts[i]).value;
    TwinsAreGrouped(ts, scan, column, i, j);
    GroupsAreWellFormed(scan, column);
    var k :| 0 <= k < |groups[name]| && groups[name][k] == ts[i];
    var l :| 0 <= l < |groups[name]| && groups[name][l] == ts[j];
    MainTenantAt(groups, column, name, k, ts[i].id);
    MainTenantAt(groups, column, name, l, ts[j].id);
  }

  lemma MarksDiffer(groups: Groups, column: Column, a: int, b: int)
    requires WellFormed(groups, column) && IsDuplicate(groups, a) && IsDuplicate(groups, b) && a != b
    ensures MarkOf(groups, a) != MarkOf(groups, b)
  {
    var n, i :| i > 0 && MemberAt(groups, n, i, a);
    var m, j :| j > 0 && MemberAt(groups, m, j, b);
    MainTenantAt(groups, column, n, i, a);
    MainTenantAt(groups, column, m, j, b);
    if MarkOf(groups, a) == MarkOf(groups, b) {
      MarkInjective(n, i, m, j);
    }
  }

  lemma MergedValue(scan: seq<Tenant>, column: Column, t: Tenant)
    ensures Value(column, MergedTenant(scan, t))
            == if IsDuplicate(GroupsOf(scan, column), t.id) then Some(MarkOf(GroupsOf(scan, column), t.id))
               else Value(column, t)
  {
  }

  lemma MergedValuesDiffer(ts: seq<Tenant>, scan: seq<Tenant>, column: Column, i: nat, j: nat)
    requires UniqueIds(ts) && NoEmpties(ts) && ScanOf(ts, scan)
    requires NoForgedMark(ts, GroupsOf(scan, column), column)
    requires i < j < |ts| && Value(column, MergedTenant(scan, ts[i])).Some?
    ensures Value(column, MergedTenant(scan, ts[i])) != Value(column, MergedTenant(scan, ts[j]))
  {
    var groups, a, b := GroupsOf(scan, column), ts[i], ts[j];
    assert a in ts && b in ts;
    MergedValue(scan, column, a);
    MergedValue(scan, column, b);
    if IsDuplicate(groups, a.id) && IsDuplicate(groups, b.id) {
      GroupsAreWellFormed(scan, column);
      MarksDiffer(groups, column, a.id, b.id);
    } else if !IsDuplicate(groups, a.id) && !IsDuplicate(groups, b.id) && Value(column, a) == Value(column, b) {
      OneIsDuplicate(ts, scan, column, i, j);
    }
  }

  lemma ForgedMarkCollides(ts: seq<Tenant>, scan: seq<Tenant>, column: Column)
    requires !NoForgedMark(ts, GroupsOf(scan, column), column)
    ensures !IndexCanBeBuilt(MergedTenants(scan, ts), column)
  {
    var groups, merged := GroupsOf(scan, column), MergedTenants(scan, ts);
    var t, u :| t in ts && u in ts && !IsDuplicate(groups, t.id) && IsDuplicate(groups, u.id)
                && Value(column, t) == Some(MarkOf(groups, u.id));
    var i :| 0 <= i < |ts| && ts[i] == t;
    var j :| 0 <= j < |ts| && ts[j] == u;
    MergedValue(scan, column, t);
    MergedValue(scan, column, u);
    assert merged[i] == MergedTenant(scan, t) && merged[j] == MergedTenant(scan, u);
    assert i < j || j < i;
  }

  function Holders(ts: seq<Tenant>, p: Tenant -> bool): set<Tenant> {
    set t | t in ts && p(t)
  }

  lemma {:induction false} CountIsSize(ts: seq<Tenant>, p: Tenant -> bool)
    requires UniqueIds(ts)
    ensures Count(ts, p) == |Holders(ts, p)|
  {
    if ts != [] {
      var front, last := ts[..|ts| - 1], ts[|ts| - 1];
      CountIsSize(front, p);
      assert ts == front + [last] && last !in front;
      assert Holders(ts, p) == Holders(front, p) + if p(last) then {last} else {};
    }
  }

  /** A group is the scan narrowed to its value. */
  lemma GroupIs(scan: seq<Tenant>, column: Column, name: string)
    requires name != ""
    ensures Bucket(GroupsOf(scan, column), name) == Filter(scan, HasValue(column, name))
    ensures name in GroupsOf(scan, column) <==> Filter(scan, HasValue(column, name)) != []
  {
    GroupByIsFilter(Filter(scan, Named(column)), NameOf(column), name);
    FilterTwice(scan, Named(column), HasKey(NameOf(column), name), HasValue(column, name));
  }

  /** The scan holds all tenants of a shared value, so the size of its group does not depend on the order. */
  lemma GroupSize(ts: seq<Tenant>, scan: seq<Tenant>, column: Column, name: string)
    requires UniqueIds(ts) && ScanOf(ts, scan) && name != ""
    ensures |Bucket(GroupsOf(scan, column), name)| <= Count(ts, HasValue(column, name))
    ensures Count(ts, HasValue(column, name)) > 1 ==>
              |Bucket(GroupsOf(scan, column), name)| == Count(ts, HasValue(column, name))
  {
    var p := HasValue(column, name);
    GroupIs(scan, column, name);
    CountIsLength(scan, p);
    CountIsSize(scan, p);
    CountIsSize(ts, p);
    SubsetSize(Holders(scan, p), Holders(ts, p));
    if Count(ts, p) > 1 {
      assert Holders(scan, p) == Holders(ts, p);
    }
  }

  lemma SubsetSize<T>(small: set<T>, large: set<T>)
    requires small <= large
    ensures |small| <= |large|
  {
    assert large == small + (large - small);
  }

  /** The head of the group of any tenant's value keeps that value. */
  lemma HeadKeepsValue(ts: seq<Tenant>, scan: seq<Tenant>, column: Column, t: Tenant)
    requires UniqueIds(ts) && ScanOf(ts, scan) && t in ts && IsDuplicate(GroupsOf(scan, column), t.id)
    ensures exists head: Tenant ::
          head in ts && !IsDuplicate(GroupsOf(scan, column), head.id) && Value(column, head) == Value(column, t)
  {
    var groups := GroupsOf(scan, column);
    GroupsAreWellFormed(scan, column);
    var name, i :| i > 0 && MemberAt(groups, name, i, t.id);
    GroupMember(scan, column, name, i);
    SameIdSameTenant(ts, groups[name][i], t);
    GroupMember(scan, column, name, 0);
    MainTenantAt(groups, column, name, 0, groups[name][0].id);
  }

  lemma ForgedIsHeld(ts: seq<Tenant>, scan: seq<Tenant>, column: Column)
    requires UniqueIds(ts) && ScanOf(ts, scan) && !NoForgedMark(ts, GroupsOf(scan, column), column)
    ensures HoldsMark(ts, column)
  {
    var groups := GroupsOf(scan, column);
    var t, u :| t in ts && u in ts && !IsDuplicate(groups, t.id) && IsDuplicate(groups, u.id)
                && Value(column, t) == Some(MarkOf(groups, u.id));
    var name, i: nat :| i > 0 && MemberAt(groups, name, i, u.id);
    GroupsAreWellFormed(scan, column);
    MainTenantAt(groups, column, name, i, u.id);
    GroupSize(ts, scan, column, name);
    assert IsMarkIn(ts, column, t, name, i);
  }

  lemma HeldIsForged(ts: seq<Tenant>, scan: seq<Tenant>, column: Column)
    requires UniqueIds(ts) && NoEmpties(ts) && ScanOf(ts, scan) && HoldsMark(ts, column)
    ensures !NoForgedMark(ts, GroupsOf(scan, column), column)
  {
    var groups := GroupsOf(scan, column);
    var t, value, i: nat :| t in ts && IsMarkIn(ts, column, t, value, i);
    if value == "" {
      CountNone(ts, HasValue(column, value));
    }
    GroupSize(ts, scan, column, value);
    GroupsAreWellFormed(scan, column);
    var u: Tenant := groups[value][i];
    GroupMember(scan, column, value, i);
    MainTenantAt(groups, column, value, i, u.id);
    if IsDuplicate(groups, t.id) {
      HeadKeepsValue(ts, scan, column, t);
    }
  }

  /** After the merge the unique index of a column can be built, in whatever order the scan came, if and only
      if no tenant held a mark of a shared value before. */
  lemma IndexBuildsIff(ts: seq<Tenant>, scan: seq<Tenant>, column: Column)
    requires UniqueIds(ts) && NoEmpties(ts) && ScanOf(ts, scan)
    ensures IndexCanBeBuilt(MergedTenants(scan, ts), column) <==> !HoldsMark(ts, column)
  {
    IndexBuildsInOrderIff(ts, scan, column);
    if HoldsMark(ts, column) {
      HeldIsForged(ts, scan, column);
    } else if !NoForgedMark(ts, GroupsOf(scan, column), column) {
      ForgedIsHeld(ts, scan, column);
    }
  }

  lemma IndexBuildsInOrderIff(ts: seq<Tenant>, scan: seq<Tenant>, column: Column)
    requires UniqueIds(ts) && NoEmpties(ts) && ScanOf(ts, scan)
    ensures IndexCanBeBuilt(MergedTenants(scan, ts), column) <==> NoForgedMark(ts, GroupsOf(scan, column), column)
  {
    var merged := MergedTenants(scan, ts);
    if NoForgedMark(ts, GroupsOf(scan, column), column) {
      forall i, j | 0 <= i < j < |ts| && Value(column, merged[i]).Some?
        ensures Value(column, merged[i]) != Value(column, merged[j])
      {
        MergedValuesDiffer(ts, scan, column, i, j);
      }
    } else {
      ForgedMarkCollides(ts, scan, column);
    }
  }

  lemma UnmarkedHoldNothing(ts: seq<Tenant>, column: Column)
    requires forall t :: t in ts ==> !Processed(t)
    ensures !HoldsMark(ts, column)
  {
    if t, value, i: nat :| t in ts && IsMarkIn(ts, column, t, value, i) {
      MarksLookProcessed(Mark(value, i));
    }
  }

  /** In particular both indexes can be built when no original value starts like a mark. */
  lemma IndexesBuild(ts: seq<Tenant>, scan: seq<Tenant>)
    requires UniqueIds(ts) && NoEmpties(ts) && ScanOf(ts, scan)
    requires forall t :: t in ts ==> !Processed(t)
    ensures IndexCanBeBuilt(MergedTenants(scan, ts), ExternalTenant)
    ensures IndexCanBeBuilt(MergedTenants(scan, ts), OrgId)
  {
    UnmarkedHoldNothing(ts, ExternalTenant);
    UnmarkedHoldNothing(ts, OrgId);
    IndexBuildsIff(ts, scan, ExternalTenant);
    IndexBuildsIff(ts, scan, OrgId);
  }

  // ---- the clean-up ----

  lemma OwnerExists(ts: seq<Tenant>, scan: seq<Tenant>, id: int)
    requires ScanOf(ts, scan) && TenantExists(ts, id)
    ensures TenantExists(ts, Owner(scan, id))
  {
    var middle := MainTenant(GroupsOf(scan, ExternalTenant), id);
    MainShares(ts, scan, ExternalTenant, id);
    MainShares(ts, scan, OrgId, middle);
  }

  lemma OwnsRowsIff(tables: Tables, id: int)
    ensures OwnsRows(tables, id) <==> exists t: Table, r :: r in tables[t] && r.tenantId == id
  {
    if t: Table, r :| r in tables[t] && r.tenantId == id {
      EveryTableIsUpdated(t);
    }
  }

  lemma OwnerIsMerged(ts: seq<Tenant>, scan: seq<Tenant>, id: int)
    requires ScanOf(ts, scan) && TenantExists(ts, id)
    ensures TenantExists(MergedTenants(scan, ts), Owner(scan, id))
  {
    OwnerExists(ts, scan, id);
    var k :| 0 <= k < |ts| && ts[k].id == Owner(scan, id);
    assert MergedTenants(scan, ts)[k] in MergedTenants(scan, ts);
  }

  lemma RowsKeepTenants(ts: seq<Tenant>, tables: Tables, scan: seq<Tenant>)
    requires ScanOf(ts, scan) && RowsHaveTenants(ts, tables)
    ensures RowsHaveTenants(MergedTenants(scan, ts), MergedTables(scan, tables))
  {
    var merged := MergedTables(scan, tables);
    forall t: Table, r | r in merged[t] ensures TenantExists(MergedTenants(scan, ts), r.tenantId) {
      var i :| 0 <= i < |tables[t]| && r == Reowned(scan, tables[t][i]);
      OwnerIsMerged(ts, scan, tables[t][i].tenantId);
    }
  }

  /** Merge and clean-up lose nothing: no table gains or loses a row, only tenant ids change, and every
      row still has its tenant once the marked tenants are deleted. */
  lemma CleanUpLosesNothing(ts: seq<Tenant>, tables: Tables, scan: seq<Tenant>)
    requires ScanOf(ts, scan) && RowsHaveTenants(ts, tables)
    ensures var merged := MergedTables(scan, tables);
            && (forall t: Table :: |merged[t]| == |tables[t]|)
            && (forall t: Table, i :: 0 <= i < |tables[t]| ==> merged[t][i].id == tables[t][i].id)
            && RowsHaveTenants(Cleaned(MergedTenants(scan, ts), merged), merged)
  {
    RowsKeepTenants(ts, tables, scan);
    OwnersStay(MergedTenants(scan, ts), MergedTables(scan, tables));
  }

  lemma OwnedAfterMerge(tables: Tables, scan: seq<Tenant>, id: int)
    ensures OwnsRows(MergedTables(scan, tables), id) <==>
          exists u: Table, r :: r in tables[u] && Owner(scan, r.tenantId) == id
  {
    var merged := MergedTables(scan, tables);
    OwnsRowsIff(merged, id);
    if u: Table, r :| r in tables[u] && Owner(scan, r.tenantId) == id {
      var i :| 0 <= i < |tables[u]| && tables[u][i] == r;
      assert merged[u][i] in merged[u] && merged[u][i].tenantId == id;
    }
    if u: Table, r :| r in merged[u] && r.tenantId == id {
      var i :| 0 <= i < |tables[u]| && merged[u][i] == r;
      assert tables[u][i] in tables[u] && Owner(scan, tables[u][i].tenantId) == id;
    }
  }

  lemma OwnersAreNoOrgDuplicates(scan: seq<Tenant>, id: int)
    requires UniqueIds(scan)
    ensures !IsDuplicate(GroupsOf(scan, OrgId), Owner(scan, id))
  {
    GroupsAreWellFormed(scan, OrgId);
    MainIsNoDuplicate(GroupsOf(scan, OrgId), OrgId, MainTenant(GroupsOf(scan, ExternalTenant), id));
  }

  /** Exactly which marked tenants survive the clean-up: those that own the rows of somebody after both
      loops although the first loop had marked them.  The second loop skips nobody. */
  lemma SurvivorsAre(ts: seq<Tenant>, tables: Tables, scan: seq<Tenant>, t: Tenant)
    requires UniqueIds(ts) && ScanOf(ts, scan) && t in ts && !Processed(t)
    ensures var merged := MergedTables(scan, tables);
            Processed(MergedTenant(scan, t)) && Kept(merged)(MergedTenant(scan, t))
            <==> IsDuplicate(GroupsOf(scan, ExternalTenant), t.id)
                 && exists u: Table, r :: r in tables[u] && Owner(scan, r.tenantId) == t.id
  {
    var externalTenants := GroupsOf(scan, ExternalTenant);
    if IsDuplicate(externalTenants, t.id) {
      MarksLookProcessed(MarkOf(externalTenants, t.id));
    }
    OwnedAfterMerge(tables, scan, t.id);
    if u: Table, r :| r in tables[u] && Owner(scan, r.tenantId) == t.id {
      OwnersAreNoOrgDuplicates(scan, r.tenantId);
    }
  }

  /** Some row belongs, after the first loop, to this tenant. */
  ghost predicate RowsReach(tables: Tables, scan: seq<Tenant>, id: int) {
    exists u: Table, r :: r in tables[u] && MainTenant(GroupsOf(scan, ExternalTenant), r.tenantId) == id
  }

  /** The tenant heads the org group of another one whose rows, after the first loop, the second moves. */
  ghost predicate InheritsRows(tables: Tables, scan: seq<Tenant>, id: int) {
    exists name, i: nat, other :: i > 0 && MemberAt(GroupsOf(scan, OrgId), name, i, other)
                                  && GroupsOf(scan, OrgId)[name][0].id == id && RowsReach(tables, scan, other)
  }

  /** The same, read off the groups: a tenant marked by the first loop owns rows in the end exactly when it
      inherits them in the second. */
  lemma SurvivorsInherit(ts: seq<Tenant>, tables: Tables, scan: seq<Tenant>, t: Tenant)
    requires UniqueIds(ts) && ScanOf(ts, scan) && t in ts && !Processed(t)
    ensures var merged := MergedTables(scan, tables);
            Processed(MergedTenant(scan, t)) && Kept(merged)(MergedTenant(scan, t))
            <==> IsDuplicate(GroupsOf(scan, ExternalTenant), t.id) && InheritsRows(tables, scan, t.id)
  {
    var externalTenants, orgIds := GroupsOf(scan, ExternalTenant), GroupsOf(scan, OrgId);
    SurvivorsAre(ts, tables, scan, t);
    GroupsAreWellFormed(scan, ExternalTenant);
    GroupsAreWellFormed(scan, OrgId);
    if IsDuplicate(externalTenants, t.id) {
      if u: Table, r :| r in tables[u] && Owner(scan, r.tenantId) == t.id {
        FirstLoopLeaves(externalTenants, orgIds, r.tenantId, t.id);
        var middle := MainTenant(externalTenants, r.tenantId);
        var name, i: nat :| i > 0 && MemberAt(orgIds, name, i, middle);
        MainTenantAt(orgIds, OrgId, name, i, middle);
        assert RowsReach(tables, scan, middle);
      }
      if name, i: nat, other :| i > 0 && MemberAt(orgIds, name, i, other) && orgIds[name][0].id == t.id
                                && RowsReach(tables, scan, other) {
        MainTenantAt(orgIds, OrgId, name, i, other);
        var u: Table, r :| r in tables[u] && MainTenant(externalTenants, r.tenantId) == other;
        assert Owner(scan, r.tenantId) == t.id;
      }
    }
  }

  /** Rows reach a tenant that the first loop emptied only through the second. */
  lemma FirstLoopLeaves(externalTenants: Groups, orgIds: Groups, id: int, owner: int)
    requires WellFormed(externalTenants, ExternalTenant) && IsDuplicate(externalTenants, owner)
    requires MainTenant(orgIds, MainTenant(externalTenants, id)) == owner
    ensures IsDuplicate(orgIds, MainTenant(externalTenants, id))
  {
    MainIsNoDuplicate(externalTenants, ExternalTenant, id);
  }

  /** No main tenant of an org group of two or more was marked by the first loop. */
  ghost predicate LoopsDoNotCross(externalTenants: Groups, orgIds: Groups) {
    forall name :: name in orgIds && |orgIds[name]| > 1 ==> !IsDuplicate(externalTenants, orgIds[name][0].id)
  }

  lemma OwnersAreNoDuplicates(scan: seq<Tenant>, id: int)
    requires UniqueIds(scan) && LoopsDoNotCross(GroupsOf(scan, ExternalTenant), GroupsOf(scan, OrgId))
    ensures !IsDuplicate(GroupsOf(scan, ExternalTenant), Owner(scan, id))
  {
    var externalTenants, orgIds := GroupsOf(scan, ExternalTenant), GroupsOf(scan, OrgId);
    GroupsAreWellFormed(scan, ExternalTenant);
    GroupsAreWellFormed(scan, OrgId);
    var middle := MainTenant(externalTenants, id);
    MainIsNoDuplicate(externalTenants, ExternalTenant, id);
    if name, i :| i > 0 && MemberAt(orgIds, name, i, middle) {
      MainTenantAt(orgIds, OrgId, name, i, middle);
    }
  }

  /** If no tenant marked by the first loop heads an org group, every marked tenant is removed. */
  lemma EveryMarkedTenantIsRemoved(ts: seq<Tenant>, tables: Tables, scan: seq<Tenant>)
    requires UniqueIds(ts) && ScanOf(ts, scan)
    requires forall t :: t in ts ==> !Processed(t)
    requires LoopsDoNotCross(GroupsOf(scan, ExternalTenant), GroupsOf(scan, OrgId))
    ensures forall t :: t in Cleaned(MergedTenants(scan, ts), MergedTables(scan, tables)) ==> !Processed(t)
  {
    var merged, marked := MergedTables(scan, tables), MergedTenants(scan, ts);
    forall k | 0 <= k < |ts| && Kept(merged)(marked[k]) ensures !Processed(marked[k]) {
      SurvivorsAre(ts, tables, scan, ts[k]);
      if u: Table, r :| r in tables[u] && Owner(scan, r.tenantId) == ts[k].id {
        OwnersAreNoDuplicates(scan, r.tenantId);
      }
    }
  }

  // ---- the four migrations in their order ----

  lemma NullingKeepsIds(ts: seq<Tenant>, tables: Tables)
    requires UniqueIds(ts) && RowsHaveTenants(ts, tables)
    ensures UniqueIds(Map(ts, NullOutEmpty)) && RowsHaveTenants(Map(ts, NullOutEmpty), tables)
  {
    var nulled := Map(ts, NullOutEmpty);
    forall t: Table, r | r in tables[t] ensures TenantExists(nulled, r.tenantId) {
      assert TenantExists(ts, r.tenantId);
      var i :| 0 <= i < |ts| && ts[i].id == r.tenantId;
      assert nulled[i] in nulled;
    }
  }

  lemma {:induction false} FilterKeepsIndex(ts: seq<Tenant>, column: Column, p: Tenant -> bool)
    requires IndexCanBeBuilt(ts, column)
    ensures IndexCanBeBuilt(Filter(ts, p), column)
  {
    if ts != [] {
      var front, last := ts[..|ts| - 1], ts[|ts| - 1];
      FilterKeepsIndex(front, column, p);
      forall t | t in Filter(front, p) && Value(column, t).Some? ensures Value(column, t) != Value(column, last) {
        assert t in front;
      }
    }
  }

  /** Migrations 20220608090000, 20220608090500, 20220608091000 and 20220830100000; the runner stops at the
      first that fails, and only the third can.  From any tenants and rows whose keys hold, in any scan and
      map order: it fails exactly when some tenant held a mark of a shared value before.  Otherwise both
      columns are unique, only marked tenants without rows are gone, and each row, still there, belongs to
      the owner that the two loops give it. */
  method Migrate(store: TenantStore) returns (ok: bool, ghost nulled: seq<Tenant>, ghost scan: seq<Tenant>)
    requires UniqueIds(store.tenants) && RowsHaveTenants(store.tenants, store.tables)
    modifies store
    ensures EmptiesAreNull(old(store.tenants), nulled)
    ensures && ScanOf(nulled, scan)
            && (ok <==> !HoldsMark(nulled, ExternalTenant) && !HoldsMark(nulled, OrgId))
            && store.tables == MergedTables(scan, old(store.tables))
            && forall t :: t in store.tenants <==>
                  t in MergedTenants(scan, nulled) && (ok && Processed(t) ==> OwnsRows(store.tables, t.id))
    ensures RowsHaveTenants(store.tenants, store.tables)
    ensures ok ==> IndexCanBeBuilt(store.tenants, ExternalTenant) && IndexCanBeBuilt(store.tenants, OrgId)
  {
    NullingKeepsIds(store.tenants, store.tables);
    nulled := Map(store.tenants, NullOutEmpty);
    store.MakeEmptiesNull();
    scan := store.MergeDuplicates();
    RowsKeepTenants(nulled, old(store.tables), scan);
    IndexBuildsIff(nulled, scan, ExternalTenant);
    IndexBuildsIff(nulled, scan, OrgId);
    ok := IndexCanBeBuilt(store.tenants, ExternalTenant) && IndexCanBeBuilt(store.tenants, OrgId);
    if ok {
      FilterKeepsIndex(store.tenants, ExternalTenant, Kept(store.tables));
      FilterKeepsIndex(store.tenants, OrgId, Kept(store.tables));
      store.RemoveProcessed();
    }
  }

  /** Two tenants share "x" and a third holds the mark that one of them will get. */
  const FORGED := [Tenant(1, Some("x"), None), Tenant(2, Some("x"), None), Tenant(3, Some(Mark("x", 1)), None)]

  /** Without rows and with no empty value, these three are tenants for which the migrations fail. */
  lemma ForgedTenantsFail(scan: seq<Tenant>)
    requires ScanOf(FORGED, scan)
    ensures UniqueIds(FORGED) && EmptiesAreNull(FORGED, FORGED) && HoldsMark(FORGED, ExternalTenant)
    ensures !IndexCanBeBuilt(MergedTenants(scan, FORGED), ExternalTenant)
  {
    var ts := FORGED;
    CountTwo(ts, HasValue(ExternalTenant, "x"), 0, 1);
    assert ts[2] in ts && IsMarkIn(ts, ExternalTenant, ts[2], "x", 1);
    IndexBuildsIff(ts, scan, ExternalTenant);
  }

  const FIRST := Tenant(1, Some("e"), None)
  const SECOND := Tenant(2, Some("e"), Some("o"))
  const THIRD := Tenant(3, None, Some("o"))

  /** Skipping processed tenants in the second loop is what the comment above it announces and what the
      code does not do: here tenant 2, marked as a duplicate of 1, receives the rows of tenant 3. */
  lemma MarkedTenantReceivesRows()
    ensures var ts := [FIRST, SECOND, THIRD];
            ScanOf(ts, ts) && IsDuplicate(GroupsOf(ts, ExternalTenant), 2) && Owner(ts, 3) == 2
  {
    var ts := [FIRST, SECOND, THIRD];
    ExampleScan();
    GroupsAreWellFormed(ts, ExternalTenant);
    GroupsAreWellFormed(ts, OrgId);
    ExampleGroups(FIRST, SECOND, THIRD);
    ExampleOwner(GroupsOf(ts, ExternalTenant), GroupsOf(ts, OrgId));
  }

  lemma ExampleScan()
    ensures ScanOf([FIRST, SECOND, THIRD], [FIRST, SECOND, THIRD])
  {
    CountTwo([FIRST, SECOND, THIRD], HasValue(ExternalTenant, "e"), 0, 1);
    CountTwo([FIRST, SECOND, THIRD], HasValue(OrgId, "o"), 1, 2);
  }

  lemma ExampleOwner(externalTenants: Groups, orgIds: Groups)
    requires WellFormed(externalTenants, ExternalTenant) && WellFormed(orgIds, OrgId)
    requires externalTenants == map["e" := [FIRST, SECOND]] && orgIds == map["o" := [SECOND, THIRD]]
    ensures IsDuplicate(externalTenants, 2) && MainTenant(orgIds, MainTenant(externalTenants, 3)) == 2
  {
    assert MemberAt(externalTenants, "e", 1, 2);
    assert MemberAt(orgIds, "o", 1, 3);
    MainTenantAt(externalTenants, ExternalTenant, "e", 1, 2);
    MainTenantAt(orgIds, OrgId, "o", 1, 3);
  }

  lemma ExampleGroups(a: Tenant, b: Tenant, c: Tenant)
    requires a.externalTenant == b.externalTenant == Some("e") && c.externalTenant == None
    requires a.orgId == None && b.orgId == c.orgId == Some("o")
    ensures GroupsOf([a, b, c], ExternalTenant) == map["e" := [a, b]]
    ensures GroupsOf([a, b, c], OrgId) == map["o" := [b, c]]
  {
    ExampleGroup(a, b, c, ExternalTenant);
    ExampleGroup(a, b, c, OrgId);
    ExampleAdded(a, b, c);
  }

  lemma ExampleAdded(a: Tenant, b: Tenant, c: Tenant)
    requires a.externalTenant == b.externalTenant == Some("e") && c.externalTenant == None
    requires a.orgId == None && b.orgId == c.orgId == Some("o")
    ensures Added(Added(Added(map[], a, ExternalTenant), b, ExternalTenant), c, ExternalTenant) == map["e" := [a, b]]
    ensures Added(Added(Added(map[], a, OrgId), b, OrgId), c, OrgId) == map["o" := [b, c]]
  {
    assert [] + [a] == [a] && [a] + [b] == [a, b] && [] + [b] == [b] && [b] + [c] == [b, c];
    assert Added(map[], a, ExternalTenant) == map["e" := [a]];
    assert Added(map["e" := [a]], b, ExternalTenant) == map["e" := [a, b]];
    assert Added(map[], a, OrgId) == map[];
    assert Added(map[], b, OrgId) == map["o" := [b]];
    assert Added(map["o" := [b]], c, OrgId) == map["o" := [b, c]];
  }

  lemma ExampleGroup(a: Tenant, b: Tenant, c: Tenant, column: Column)
    ensures GroupsOf([a, b, c], column)
            == Added(Added(Added(map[], a, column), b, column), c, column)
  {
    assert [] + [a] == [a] && [a] + [b] == [a, b] && [a, b] + [c] == [a, b, c];
    GroupAdd([], a, column);
    GroupAdd([a], b, column);
    GroupAdd([a, b], c, column);
  }

  /** One turn of the grouping loop. */
  function Added(groups: Groups, t: Tenant, column: Column): Groups {
    var name := NameOf(column)(t);
    if Named(column)(t) then groups[name := Bucket(groups, name) + [t]] else groups
  }

  lemma GroupAdd(front: seq<Tenant>, t: Tenant, column: Column)
    ensures GroupsOf(front + [t], column) == Added(GroupsOf(front, column), t, column)
  {
    var ts := front + [t];
    assert ts[..|ts| - 1] == front;
    GroupOneMore(ts, column);
  }
}
