/** db/migrations: tenants that share an EBS account number or an org id are merged.  The rows of seven
    tables move to the first tenant of each group, and the others are marked. */
module TenantMerge {
  import opened Collections
  import opened TenantMarks

  /** A NULL column is `None`. */
  datatype Tenant = Tenant(id: int, externalTenant: Option<string>, orgId: Option<string>)

  datatype Column = ExternalTenant | OrgId

  datatype Table =
    | ApplicationAuthentications
    | Applications
    | Authentications
    | Endpoints
    | Sources
    | SourceRhcConnections
    | Users

  datatype Row = Row(id: int, tenantId: int)

  const UPDATABLE_TABLES := [ApplicationAuthentications, Applications, Authentications, Endpoints,
                             Sources, SourceRhcConnections, Users]

  type Tables = m: map<Table, seq<Row>> | forall t :: t in m
    witness map t: Table | true :: []

  type Groups = map<string, seq<Tenant>>

  function Value(column: Column, t: Tenant): Option<string> {
    if column.ExternalTenant? then t.externalTenant else t.orgId
  }

  function WithValue(column: Column, t: Tenant, value: Option<string>): Tenant {
    if column.ExternalTenant? then t.(externalTenant := value) else t.(orgId := value)
  }

  ghost predicate UniqueIds(ts: seq<Tenant>) {
    forall i, j :: 0 <= i < j < |ts| ==> ts[i].id != ts[j].id
  }

  predicate NoEmpties(ts: seq<Tenant>) {
    forall t :: t in ts ==> t.externalTenant != Some("") && t.orgId != Some("")
  }

  // ---- which tenants are duplicated, and how they are grouped ----

  function HasValue(column: Column, value: string): Tenant -> bool {
    (t: Tenant) => Value(column, t) == Some(value)
  }

  /** `column IN (SELECT … GROUP BY column HAVING count(column) > 1)`; never true of NULL. */
  predicate SharesValue(ts: seq<Tenant>, column: Column, t: Tenant) {
    Value(column, t).Some? && Count(ts, HasValue(column, Value(column, t).value)) > 1
  }

  function Duplicated(ts: seq<Tenant>): Tenant -> bool {
    (t: Tenant) => SharesValue(ts, ExternalTenant, t) || SharesValue(ts, OrgId, t)
  }

  lemma {:induction false} CountedTwice(ts: seq<Tenant>, p: Tenant -> bool, i: nat) returns (j: nat)
    requires i < |ts| && Count(ts, p) > 1
    ensures j < |ts| && j != i && p(ts[j])
  {
    var front := ts[..|ts| - 1];
    if i < |front| && !p(ts[|front|]) {
      j := CountedTwice(front, p, i);
    } else if i < |front| {
      j := |front|;
    } else {
      j := CountWitness(front, p);
    }
  }

  ghost predicate SharedWithAnother(ts: seq<Tenant>, column: Column, i: nat)
    requires i < |ts|
  {
    Value(column, ts[i]).Some?
    && exists j :: 0 <= j < |ts| && j != i && Value(column, ts[j]) == Value(column, ts[i])
  }

  /** A tenant is duplicated when another one holds the same EBS number or the same org id; two without one
      hold nothing the same. */
  lemma DuplicatedIff(ts: seq<Tenant>, i: nat)
    requires i < |ts|
    ensures Duplicated(ts)(ts[i])
            <==> exists j :: 0 <= j < |ts| && j != i
                   && ((ts[i].externalTenant.Some? && ts[j].externalTenant == ts[i].externalTenant)
                       || (ts[i].orgId.Some? && ts[j].orgId == ts[i].orgId))
  {
    forall column: Column
      ensures SharesValue(ts, column, ts[i])
              <==> SharedWithAnother(ts, column, i)
    {
      SharesIff(ts, column, i);
    }
    assert forall j :: 0 <= j < |ts| ==> Value(ExternalTenant, ts[j]) == ts[j].externalTenant;
    assert forall j :: 0 <= j < |ts| ==> Value(OrgId, ts[j]) == ts[j].orgId;
  }

  lemma SharesIff(ts: seq<Tenant>, column: Column, i: nat)
    requires i < |ts|
    ensures SharesValue(ts, column, ts[i])
            <==> SharedWithAnother(ts, column, i)
  {
    if Value(column, ts[i]).Some? {
      var p := HasValue(column, Value(column, ts[i]).value);
      if SharesValue(ts, column, ts[i]) {
        var j := CountedTwice(ts, p, i);
      }
      if j :| 0 <= j < |ts| && j != i && Value(column, ts[j]) == Value(column, ts[i]) {
        if i < j {
          CountTwo(ts, p, i, j);
        } else {
          CountTwo(ts, p, j, i);
        }
      }
    }
  }

  /** What the query may return: the duplicated tenants, each once, in any order. */
  ghost predicate ScanOf(ts: seq<Tenant>, scan: seq<Tenant>) {
    UniqueIds(scan) && forall t :: t in scan <==> t in ts && Duplicated(ts)(t)
  }

  /** The scanned column is not the empty string, which is also what NULL is scanned into. */
  function Named(column: Column): Tenant -> bool {
    (t: Tenant) => Value(column, t).Some? && Value(column, t).value != ""
  }

  function NameOf(column: Column): Tenant -> string {
    (t: Tenant) => if Value(column, t).Some? then Value(column, t).value else ""
  }

  function GroupsOf(scan: seq<Tenant>, column: Column): Groups {
    GroupBy(Filter(scan, Named(column)), NameOf(column))
  }

  /** Tenant `id` is the `i`-th member of the group of `name`, counted from 0. */
  ghost predicate MemberAt(groups: Groups, name: string, i: nat, id: int) {
    name in groups && i < |groups[name]| && groups[name][i].id == id
  }

  ghost predicate WellFormed(groups: Groups, column: Column) {
    && (forall name :: name in groups ==> name != "" && groups[name] != [] && UniqueIds(groups[name]))
    && (forall name, t :: name in groups && t in groups[name] ==> Value(column, t) == Some(name))
    && (forall n, i, m, j, id :: MemberAt(groups, n, i, id) && MemberAt(groups, m, j, id) ==> n == m && i == j)
  }

  ghost predicate IsDuplicate(groups: Groups, id: int) {
    exists name, i :: i > 0 && MemberAt(groups, name, i, id)
  }

  /** The tenant a duplicate is merged into: the first of its group. */
  ghost function MainTenant(groups: Groups, id: int): int {
    if exists name, i :: i > 0 && MemberAt(groups, name, i, id)
    then var name, i :| i > 0 && MemberAt(groups, name, i, id); groups[name][0].id
    else id
  }

  ghost function MarkOf(groups: Groups, id: int): string
    requires IsDuplicate(groups, id)
  {
    var name, i :| i > 0 && MemberAt(groups, name, i, id);
    Mark(name, i)
  }

  lemma MainTenantAt(groups: Groups, column: Column, name: string, i: nat, id: int)
    requires WellFormed(groups, column) && MemberAt(groups, name, i, id)
    ensures MainTenant(groups, id) == groups[name][0].id
    ensures i > 0 ==> IsDuplicate(groups, id) && MarkOf(groups, id) == Mark(name, i)
    ensures i == 0 ==> !IsDuplicate(groups, id)
  {
    assert MemberAt(groups, name, 0, groups[name][0].id);
  }

  /** A main tenant is the head of its group, hence never a duplicate itself. */
  lemma MainIsNoDuplicate(groups: Groups, column: Column, id: int)
    requires WellFormed(groups, column)
    ensures !IsDuplicate(groups, MainTenant(groups, id))
    ensures IsDuplicate(groups, id) ==> MainTenant(groups, id) != id
  {
    if name, i :| i > 0 && MemberAt(groups, name, i, id) {
      MainTenantAt(groups, column, name, i, id);
      assert MemberAt(groups, name, 0, groups[name][0].id);
      MainTenantAt(groups, column, name, 0, groups[name][0].id);
    }
  }

  lemma {:induction false} FilterKeepsUnique(ts: seq<Tenant>, p: Tenant -> bool)
    requires UniqueIds(ts)
    ensures UniqueIds(Filter(ts, p))
  {
    if ts != [] {
      var front, last := ts[..|ts| - 1], ts[|ts| - 1];
      FilterKeepsUnique(front, p);
      assert forall t :: t in Filter(front, p) ==> t in front && t.id != last.id;
    }
  }

  lemma GroupsAreWellFormed(scan: seq<Tenant>, column: Column)
    requires UniqueIds(scan)
    ensures WellFormed(GroupsOf(scan, column), column)
    ensures forall t :: t in scan && Named(column)(t) ==>
                          NameOf(column)(t) in GroupsOf(scan, column) && t in GroupsOf(scan, column)[NameOf(column)(t)]
    ensures forall name, t :: name in GroupsOf(scan, column) && t in GroupsOf(scan, column)[name] ==> t in scan
  {
    var named := Filter(scan, Named(column));
    var groups := GroupsOf(scan, column);
    FilterKeepsUnique(scan, Named(column));
    forall name ensures Bucket(groups, name) == Filter(named, HasKey(NameOf(column), name))
      ensures name in groups <==> Filter(named, HasKey(NameOf(column), name)) != []
      ensures UniqueIds(Bucket(groups, name))
    {
      GroupByIsFilter(named, NameOf(column), name);
      FilterKeepsUnique(named, HasKey(NameOf(column), name));
    }
    forall name | name in groups ensures name != "" && groups[name] != [] {
      assert Bucket(groups, name) == groups[name];
      assert groups[name][0] in named;
    }
    forall name, t | name in groups && t in groups[name] ensures Value(column, t) == Some(name) && t in scan {
      assert t in Bucket(groups, name);
    }
    forall n, i: nat, m, j: nat, id | MemberAt(groups, n, i, id) && MemberAt(groups, m, j, id)
      ensures n == m && i == j {
      assert groups[n][i] in Bucket(groups, n) && groups[m][j] in Bucket(groups, m);
      SameIdSameTenant(scan, groups[n][i], groups[m][j]);
    }
    forall t | t in scan && Named(column)(t) ensures NameOf(column)(t) in groups && t in groups[NameOf(column)(t)] {
      assert t in Filter(named, HasKey(NameOf(column), NameOf(column)(t)));
    }
  }

  lemma SameIdSameTenant(ts: seq<Tenant>, t: Tenant, u: Tenant)
    requires UniqueIds(ts) && t in ts && u in ts && t.id == u.id
    ensures t == u
  {
  }

  // ---- the two loops ----

  /** A row after the duplicates in `moved` have been processed. */
  ghost function MovedRow(groups: Groups, moved: set<int>, r: Row): Row {
    if r.tenantId in moved then r.(tenantId := MainTenant(groups, r.tenantId)) else r
  }

  ghost function MovedRows(groups: Groups, moved: set<int>, rows: seq<Row>): seq<Row> {
    seq(|rows|, i requires 0 <= i < |rows| => MovedRow(groups, moved, rows[i]))
  }

  ghost function MarkedTenant(groups: Groups, column: Column, moved: set<int>, t: Tenant): Tenant {
    if t.id in moved && IsDuplicate(groups, t.id) then WithValue(column, t, Some(MarkOf(groups, t.id))) else t
  }

  ghost function MarkedTenants(groups: Groups, column: Column, moved: set<int>, ts: seq<Tenant>): seq<Tenant> {
    seq(|ts|, i requires 0 <= i < |ts| => MarkedTenant(groups, column, moved, ts[i]))
  }

  /** Every duplicate of the groups, and nothing else. */
  ghost predicate AllDuplicates(groups: Groups, moved: set<int>) {
    forall id :: id in moved <==> IsDuplicate(groups, id)
  }

  /** Moving one more duplicate is one more UPDATE: its rows are still its own, since no main tenant is a
      duplicate. */
  lemma MoveOneMore(groups: Groups, column: Column, moved: set<int>, name: string, i: nat, rows: seq<Row>)
    requires WellFormed(groups, column)
    requires forall id :: id in moved ==> IsDuplicate(groups, id)
    requires name in groups && 0 < i < |groups[name]|
    ensures var id := groups[name][i].id;
            Map(MovedRows(groups, moved, rows), Reassign(id, groups[name][0].id))
            == MovedRows(groups, moved + {id}, rows)
  {
    var id := groups[name][i].id;
    MainTenantAt(groups, column, name, i, id);
    forall k | 0 <= k < |rows|
      ensures Reassign(id, groups[name][0].id)(MovedRow(groups, moved, rows[k]))
              == MovedRow(groups, moved + {id}, rows[k])
    {
      MainIsNoDuplicate(groups, column, rows[k].tenantId);
      assert MemberAt(groups, name, i, id);
    }
  }

  lemma EveryTableMoved(groups: Groups, column: Column, moved: set<int>, name: string, i: nat,
                        before: Tables, start: Tables, after: Tables)
    requires WellFormed(groups, column)
    requires forall id :: id in moved ==> IsDuplicate(groups, id)
    requires name in groups && 0 < i < |groups[name]|
    requires forall t :: start[t] == MovedRows(groups, moved, before[t])
    requires forall t :: PlaceOf(t) < |UPDATABLE_TABLES| ==>
               after[t] == Map(start[t], Reassign(groups[name][i].id, groups[name][0].id))
    ensures forall t :: after[t] == MovedRows(groups, moved + {groups[name][i].id}, before[t])
  {
    forall t: Table ensures after[t] == MovedRows(groups, moved + {groups[name][i].id}, before[t]) {
      EveryTableIsUpdated(t);
      MoveOneMore(groups, column, moved, name, i, before[t]);
    }
  }

  /** `UPDATE … SET tenant_id = to WHERE tenant_id = from`, on one row. */
  function Reassign(from: int, to: int): Row -> Row {
    (r: Row) => if r.tenantId == from then r.(tenantId := to) else r
  }

  function OwnedBy(id: int): Row -> bool {
    (r: Row) => r.tenantId == id
  }

  /** How many rows of a table the tenant owns. */
  function Owned(rows: seq<Row>, id: int): nat {
    Count(rows, OwnedBy(id))
  }

  function IdsOf(rows: seq<Row>): seq<int> {
    Map(rows, (r: Row) => r.id)
  }

  function OwnedAfter(rows: seq<Row>, from: int, to: int, id: int): nat {
    if from == to then Owned(rows, id)
    else if id == from then 0
    else if id == to then Owned(rows, from) + Owned(rows, to)
    else Owned(rows, id)
  }

  lemma {:induction false} ReassignMovesRows(rows: seq<Row>, from: int, to: int, id: int)
    ensures Owned(Map(rows, Reassign(from, to)), id) == OwnedAfter(rows, from, to, id)
  {
    if rows != [] {
      var front := rows[..|rows| - 1];
      ReassignMovesRows(front, from, to, id);
      assert Map(rows, Reassign(from, to))[..|front|] == Map(front, Reassign(from, to));
    }
  }

  function SetMark(column: Column, id: int, mark: string): Tenant -> Tenant {
    (t: Tenant) => if t.id == id then WithValue(column, t, Some(mark)) else t
  }

  /** In each column an empty text became NULL and anything else stayed. */
  ghost predicate EmptiesAreNull(before: seq<Tenant>, after: seq<Tenant>) {
    && |after| == |before|
    && (forall i :: 0 <= i < |before| ==> after[i].id == before[i].id)
    && forall i, column :: 0 <= i < |before| ==>
          Value(column, after[i]) == if Value(column, before[i]) == Some("") then None else Value(column, before[i])
  }

  lemma SetMarkIsUpdate(column: Column, mark: string, ts: seq<Tenant>, i: nat)
    requires UniqueIds(ts) && i < |ts|
    ensures Map(ts, SetMark(column, ts[i].id, mark)) == ts[i := WithValue(column, ts[i], Some(mark))]
  {
  }

  lemma MarkLeavesGroup(column: Column, id: int, mark: string, ts: seq<Tenant>)
    ensures var marked := Map(ts, SetMark(column, id, mark));
            && (UniqueIds(ts) ==> UniqueIds(marked))
            && (UniqueIds(ts) ==> forall i, value :: 0 <= i < |ts| && ts[i].id == id && value != mark ==>
                  Count(marked, HasValue(column, value))
                  == Count(ts, HasValue(column, value)) - if Value(column, ts[i]) == Some(value) then 1 else 0)
            && (LooksProcessed(mark) ==> forall t :: t in marked && t.id == id ==> Processed(t))
  {
    var marked := Map(ts, SetMark(column, id, mark));
    forall i, value | UniqueIds(ts) && 0 <= i < |ts| && ts[i].id == id && value != mark
      ensures Count(marked, HasValue(column, value))
              == Count(ts, HasValue(column, value)) - if Value(column, ts[i]) == Some(value) then 1 else 0
    {
      SetMarkIsUpdate(column, mark, ts, i);
      CountUpdate(ts, i, WithValue(column, ts[i], Some(mark)), HasValue(column, value));
    }
  }

  function NullOutEmpty(t: Tenant): Tenant {
    Tenant(t.id,
           if t.externalTenant == Some("") then None else t.externalTenant,
           if t.orgId == Some("") then None else t.orgId)
  }

  function PlaceOf(t: Table): nat {
    match t
    case ApplicationAuthentications => 0
    case Applications => 1
    case Authentications => 2
    case Endpoints => 3
    case Sources => 4
    case SourceRhcConnections => 5
    case Users => 6
  }

  lemma TableAt(n: nat)
    requires n < |UPDATABLE_TABLES|
    ensures forall t :: PlaceOf(t) == n <==> t == UPDATABLE_TABLES[n]
  {
  }

  lemma EveryTableIsUpdated(t: Table)
    ensures PlaceOf(t) < |UPDATABLE_TABLES| && t in UPDATABLE_TABLES
  {
    assert UPDATABLE_TABLES[PlaceOf(t)] == t;
  }

  class TenantStore {
    var tenants: seq<Tenant>
    var tables: Tables

    constructor (tenants: seq<Tenant>, tables: Tables)
      ensures this.tenants == tenants && this.tables == tables
    {
      this.tenants := tenants;
      this.tables := tables;
    }

    /** Migration 20220608090000. */
    method MakeEmptiesNull()
      modifies this`tenants
      ensures tenants == Map(old(tenants), NullOutEmpty)
      ensures EmptiesAreNull(old(tenants), tenants) && NoEmpties(tenants)
    {
      tenants := Map(tenants, NullOutEmpty);
    }

    /** The new tenant owns what both owned, the old one nothing, and nobody else notices. */
    method UpdateTenantFromTable(table: Table, oldTenantId: int, newTenantId: int)
      modifies this`tables
      ensures tables == old(tables)[table := Map(old(tables)[table], Reassign(oldTenantId, newTenantId))]
      ensures forall id :: Owned(tables[table], id) == OwnedAfter(old(tables)[table], oldTenantId, newTenantId, id)
      ensures IdsOf(tables[table]) == IdsOf(old(tables)[table])
    {
      forall id ensures Owned(Map(tables[table], Reassign(oldTenantId, newTenantId)), id)
                        == OwnedAfter(tables[table], oldTenantId, newTenantId, id)
      {
        ReassignMovesRows(tables[table], oldTenantId, newTenantId, id);
      }
      tables := tables[table := Map(tables[table], Reassign(oldTenantId, newTenantId))];
    }

    /** The marked tenant leaves the group of its value, every other group keeps its members, and the
        clean-up will recognise it. */
    method MarkAsDuplicate(column: Column, mark: string, tenantId: int)
      modifies this`tenants
      ensures tenants == Map(old(tenants), SetMark(column, tenantId, mark))
      ensures UniqueIds(old(tenants)) ==> UniqueIds(tenants)
      ensures UniqueIds(old(tenants)) ==>
        forall i, value :: 0 <= i < |tenants| && old(tenants)[i].id == tenantId && value != mark ==>
          Count(tenants, HasValue(column, value)) == Count(old(tenants), HasValue(column, value))
                                                     - if Value(column, old(tenants)[i]) == Some(value) then 1 else 0
      ensures LooksProcessed(mark) ==> forall t :: t in tenants && t.id == tenantId ==> Processed(t)
    {
      MarkLeavesGroup(column, tenantId, mark, tenants);
      tenants := Map(tenants, SetMark(column, tenantId, mark));
    }

    /** The duplicates query has no ORDER BY: callers may rely on the set of rows only. */
    method SelectDuplicates() returns (scan: seq<Tenant>)
      requires UniqueIds(tenants)
      ensures ScanOf(tenants, scan)
    {
      scan := Filter(tenants, Duplicated(tenants));
      FilterKeepsUnique(tenants, Duplicated(tenants));
    }

    /** Moves the rows of one tenant in all seven tables. */
    method MoveTenant(groups: Groups, column: Column, ghost moved: set<int>, name: string, i: nat,
                      ghost before: Tables)
      requires WellFormed(groups, column)
      requires forall id :: id in moved ==> IsDuplicate(groups, id)
      requires name in groups && 0 < i < |groups[name]|
      requires forall t :: tables[t] == MovedRows(groups, moved, before[t])
      modifies this`tables
      ensures forall t :: tables[t] == MovedRows(groups, moved + {groups[name][i].id}, before[t])
    {
      var id, mainTenantId := groups[name][i].id, groups[name][0].id;
      ghost var start := tables;
      for n := 0 to |UPDATABLE_TABLES|
        invariant forall t :: PlaceOf(t) < n ==> tables[t] == Map(start[t], Reassign(id, mainTenantId))
        invariant forall t :: PlaceOf(t) >= n ==> tables[t] == start[t]
      {
        TableAt(n);
        UpdateTenantFromTable(UPDATABLE_TABLES[n], id, mainTenantId);
      }
      EveryTableMoved(groups, column, moved, name, i, before, start, tables);
    }

    /** One turn of the merge: the rows of a duplicate move, and it is marked. */
    method MergeTenant(column: Column, groups: Groups, name: string, i: nat, ghost moved: set<int>,
                       ghost tablesBefore: Tables, ghost tenantsBefore: seq<Tenant>)
      requires WellFormed(groups, column) && name in groups && 0 < i < |groups[name]|
      requires forall id :: id in moved ==> IsDuplicate(groups, id)
      requires forall t :: tables[t] == MovedRows(groups, moved, tablesBefore[t])
      requires tenants == MarkedTenants(groups, column, moved, tenantsBefore)
      modifies this
      ensures IsDuplicate(groups, groups[name][i].id)
      ensures forall t :: tables[t] == MovedRows(groups, moved + {groups[name][i].id}, tablesBefore[t])
      ensures tenants == MarkedTenants(groups, column, moved + {groups[name][i].id}, tenantsBefore)
    {
      MainTenantAt(groups, column, name, i, groups[name][i].id);
      MoveTenant(groups, column, moved, name, i, tablesBefore);
      MarkAsDuplicate(column, Mark(name, i), groups[name][i].id);
    }

    /** One merge loop, over the groups of one column in any order. */
    method MergeGroups(column: Column, groups: Groups) returns (ghost moved: set<int>)
      requires WellFormed(groups, column)
      modifies this
      ensures AllDuplicates(groups, moved)
      ensures forall t :: tables[t] == MovedRows(groups, moved, old(tables)[t])
      ensures tenants == MarkedTenants(groups, column, moved, old(tenants))
    {
      var todo := groups.Keys;
      moved := {};
      while todo != {}
        invariant todo <= groups.Keys
        invariant forall id :: id in moved ==> IsDuplicate(groups, id)
        invariant forall name, i, id :: name !in todo && i > 0 && MemberAt(groups, name, i, id) ==> id in moved
        invariant forall t :: tables[t] == MovedRows(groups, moved, old(tables)[t])
        invariant tenants == MarkedTenants(groups, column, moved, old(tenants))
        decreases |todo|
      {
        var name :| name in todo;
        ghost var start := moved;
        for i := 1 to |groups[name]|
          invariant forall id :: id in moved ==> IsDuplicate(groups, id)
          invariant start <= moved
          invariant forall j, id :: 0 < j < i && MemberAt(groups, name, j, id) ==> id in moved
          invariant forall t :: tables[t] == MovedRows(groups, moved, old(tables)[t])
          invariant tenants == MarkedTenants(groups, column, moved, old(tenants))
        {
          MergeTenant(column, groups, name, i, moved, old(tables), old(tenants));
          moved := moved + {groups[name][i].id};
        }
        todo := todo - {name};
      }
    }

    /** Migration 20220608090500: the external tenants first, then the org ids, both grouped from the one
        scan taken before either loop.  A tenant marked by the first loop is not skipped by the second. */
    method MergeDuplicates() returns (ghost scan: seq<Tenant>)
      requires UniqueIds(tenants)
      modifies this
      ensures ScanOf(old(tenants), scan)
      ensures tables == MergedTables(scan, old(tables))
      ensures tenants == MergedTenants(scan, old(tenants))
    {
      var rows := SelectDuplicates();
      scan := rows;
      GroupsAreWellFormed(rows, ExternalTenant);
      GroupsAreWellFormed(rows, OrgId);
      var externalTenantIds, orgIdIds := GroupTenants(rows);
      ghost var moved := MergeGroups(ExternalTenant, externalTenantIds);
      ghost var movedAgain := MergeGroups(OrgId, orgIdIds);
      forall t: Table ensures tables[t] == MergedTables(scan, old(tables))[t] {
        AllMoved(externalTenantIds, ExternalTenant, moved);
        AllMoved(orgIdIds, OrgId, movedAgain);
      }
      assert tables.Keys == MergedTables(scan, old(tables)).Keys;
    }

    /** Migration 20220830100000: the guarded deletion.  A tenant goes if and only if it is marked and owns no
        row, so no row loses its tenant, and running it again removes nothing. */
    method RemoveProcessed()
      modifies this`tenants
      ensures tenants == Cleaned(old(tenants), tables)
      ensures forall t :: t in tenants <==> t in old(tenants) && (Processed(t) ==> OwnsRows(tables, t.id))
      ensures UniqueIds(old(tenants)) ==> UniqueIds(tenants)
      ensures RowsHaveTenants(old(tenants), tables) ==> RowsHaveTenants(tenants, tables)
      ensures Cleaned(tenants, tables) == tenants
    {
      if UniqueIds(tenants) {
        FilterKeepsUnique(tenants, Kept(tables));
      }
      if RowsHaveTenants(tenants, tables) {
        OwnersStay(tenants, tables);
      }
      FilterTwice(tenants, Kept(tables), Kept(tables), Kept(tables));
      tenants := Filter(tenants, Kept(tables));
    }
  }

  lemma GroupOneMore(scan: seq<Tenant>, column: Column)
    requires scan != []
    ensures var front, t := scan[..|scan| - 1], scan[|scan| - 1];
            var name := NameOf(column)(t);
            GroupsOf(scan, column) == if Named(column)(t)
                                      then GroupsOf(front, column)[name := Bucket(GroupsOf(front, column), name) + [t]]
                                      else GroupsOf(front, column)
  {
    var front, t := scan[..|scan| - 1], scan[|scan| - 1];
    if Named(column)(t) {
      var named := Filter(scan, Named(column));
      assert named[..|named| - 1] == Filter(front, Named(column));
    }
  }

  /** The loop that fills both maps. */
  method GroupTenants(scan: seq<Tenant>) returns (externalTenantIds: Groups, orgIdIds: Groups)
    ensures externalTenantIds == GroupsOf(scan, ExternalTenant)
    ensures orgIdIds == GroupsOf(scan, OrgId)
  {
    externalTenantIds, orgIdIds := map[], map[];
    for i := 0 to |scan|
      invariant externalTenantIds == GroupsOf(scan[..i], ExternalTenant)
      invariant orgIdIds == GroupsOf(scan[..i], OrgId)
    {
      var t := scan[i];
      GroupOneMore(scan[..i + 1], ExternalTenant);
      GroupOneMore(scan[..i + 1], OrgId);
      assert scan[..i + 1][..i] == scan[..i];
      if t.externalTenant.Some? && t.externalTenant.value != "" {
        externalTenantIds := externalTenantIds[t.externalTenant.value :=
            Bucket(externalTenantIds, t.externalTenant.value) + [t]];
      }
      if t.orgId.Some? && t.orgId.value != "" {
        orgIdIds := orgIdIds[t.orgId.value := Bucket(orgIdIds, t.orgId.value) + [t]];
      }
    }
    assert scan[..|scan|] == scan;
  }

  // ---- the merge as one function of the scan ----

  /** The tenant that ends up owning the rows of tenant `id`. */
  ghost function Owner(scan: seq<Tenant>, id: int): int {
    MainTenant(GroupsOf(scan, OrgId), MainTenant(GroupsOf(scan, ExternalTenant), id))
  }

  ghost function Reowned(scan: seq<Tenant>, r: Row): Row {
    r.(tenantId := Owner(scan, r.tenantId))
  }

  ghost function MergedTables(scan: seq<Tenant>, tables: Tables): Tables {
    map t: Table | true :: seq(|tables[t]|, i requires 0 <= i < |tables[t]| => Reowned(scan, tables[t][i]))
  }

  ghost function MergedTenant(scan: seq<Tenant>, t: Tenant): Tenant {
    var externalTenants, orgIds := GroupsOf(scan, ExternalTenant), GroupsOf(scan, OrgId);
    Tenant(t.id,
           if IsDuplicate(externalTenants, t.id) then Some(MarkOf(externalTenants, t.id)) else t.externalTenant,
           if IsDuplicate(orgIds, t.id) then Some(MarkOf(orgIds, t.id)) else t.orgId)
  }

  ghost function MergedTenants(scan: seq<Tenant>, ts: seq<Tenant>): seq<Tenant> {
    seq(|ts|, i requires 0 <= i < |ts| => MergedTenant(scan, ts[i]))
  }

  lemma AllMoved(groups: Groups, column: Column, moved: set<int>)
    requires AllDuplicates(groups, moved)
    ensures forall r :: MovedRow(groups, moved, r) == r.(tenantId := MainTenant(groups, r.tenantId))
  {
  }

  predicate Processed(t: Tenant) {
    || (t.externalTenant.Some? && LooksProcessed(t.externalTenant.value))
    || (t.orgId.Some? && LooksProcessed(t.orgId.value))
  }

  predicate OwnsRows(tables: Tables, id: int) {
    exists t :: t in UPDATABLE_TABLES && exists r :: r in tables[t] && r.tenantId == id
  }

  /** The deletion spares every tenant that is not marked, and every one that still owns a row. */
  function Kept(tables: Tables): Tenant -> bool {
    (t: Tenant) => !Processed(t) || OwnsRows(tables, t.id)
  }

  function Cleaned(ts: seq<Tenant>, tables: Tables): seq<Tenant> {
    Filter(ts, Kept(tables))
  }

  ghost predicate TenantExists(ts: seq<Tenant>, id: int) {
    exists t :: t in ts && t.id == id
  }

  /** The foreign keys into the tenants table. */
  ghost predicate RowsHaveTenants(ts: seq<Tenant>, tables: Tables) {
    forall t: Table, r :: r in tables[t] ==> TenantExists(ts, r.tenantId)
  }

  lemma OwnersStay(ts: seq<Tenant>, tables: Tables)
    requires RowsHaveTenants(ts, tables)
    ensures RowsHaveTenants(Cleaned(ts, tables), tables)
  {
    forall t: Table, r | r in tables[t] ensures TenantExists(Cleaned(ts, tables), r.tenantId) {
      assert TenantExists(ts, r.tenantId);
      var owner :| owner in ts && owner.id == r.tenantId;
      EveryTableIsUpdated(t);
      assert Kept(tables)(owner);
    }
  }
}
