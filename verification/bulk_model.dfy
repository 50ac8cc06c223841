/** The requests, rows and lookups of service/bulk_create.go, and model/user_resource.go. */
module BulkModel {
  import opened Collections
  import opened LikePatterns

  datatype SourceType = SourceType(id: int, name: string)
  datatype AppType = AppType(id: int, name: string, userOwned: bool)

  /** A raw id of a request: absent, not convertible to an integer, or a number. */
  datatype RawId = NoId | BadId | Id(value: int)

  datatype ResourceType = SourceResource | ApplicationResource | EndpointResource | OtherResource

  datatype SourceReq = SourceReq(name: string, typeId: RawId, typeName: string, status: string)
  datatype ApplicationReq = ApplicationReq(typeId: RawId, typeName: string, sourceName: string)
  datatype EndpointReq = EndpointReq(host: string, sourceId: RawId, sourceName: string)
  /** `encodable`: the secret store takes the password and extra values; `valid`: the request passes the
      authentication validation. */
  datatype AuthReq = AuthReq(resourceType: ResourceType, resourceName: string, encodable: bool, valid: bool)

  datatype Request = Request(sources: seq<SourceReq>, applications: seq<ApplicationReq>,
                             endpoints: seq<EndpointReq>, authentications: seq<AuthReq>)

  datatype Source = Source(id: int, name: string, sourceType: SourceType, userOwned: bool, status: string)
  datatype Application = Application(id: int, appType: AppType, sourceId: int, userOwned: bool, status: string)
  datatype Endpoint = Endpoint(id: int, host: string, sourceId: int)
  datatype Authentication =
    Authentication(id: int, resourceType: ResourceType, resourceId: int, sourceId: int, userOwned: bool, status: string)
  datatype AppAuth = AppAuth(applicationId: int, authenticationId: int, userOwned: bool)

  datatype Error = BadType | Invalid | Incompatible | NotLinked | NotAllLinked | EmptySlice | StoreError
  datatype Result<T> = Ok(value: T) | Err(error: Error)

  const AVAILABLE := "available"
  const IN_PROGRESS := "in_progress"
  const VALID_STATUSES := {"available", "in_progress", "partially_available", "unavailable"}

  /** What the lookups of the request's tenant see: the type tables, the names already taken, the existing
      resources, the remaining endpoint checks and the integer parser. */
  datatype Catalog = Catalog(
    sourceTypes: seq<SourceType>,
    appTypes: seq<AppType>,
    supports: (AppType, SourceType) -> bool,
    takenNames: set<string>,
    existing: (ResourceType, int) -> bool,
    endpointOk: (EndpointReq, int) -> bool,
    parseInt: string -> Option<int>)

  function SourceTypeById(c: Catalog, id: int): Option<SourceType> {
    var found := Filter(c.sourceTypes, (t: SourceType) => t.id == id);
    if found == [] then None else Some(found[0])
  }

  /** `name LIKE '%…%'` with exactly one row. */
  function SourceTypeByName(c: Catalog, name: string): Option<SourceType> {
    var found := Filter(c.sourceTypes, (t: SourceType) => Like(t.name, "%" + name + "%"));
    if |found| == 1 then Some(found[0]) else None
  }

  function AppTypeById(c: Catalog, id: int): Option<AppType> {
    var found := Filter(c.appTypes, (t: AppType) => t.id == id);
    if found == [] then None else Some(found[0])
  }

  function AppTypeByName(c: Catalog, name: string): Option<AppType> {
    var found := Filter(c.appTypes, (t: AppType) => Like(t.name, "%" + name + "%"));
    if |found| == 1 then Some(found[0]) else None
  }

  function OkOr<T>(found: Option<T>, error: Error): Result<T> {
    match found
    case None => Err(error)
    case Some(t) => Ok(t)
  }

  /** An id wins over a name. */
  function TypeOfSource(c: Catalog, req: SourceReq): Result<SourceType> {
    match req.typeId
    case BadId => Err(BadType)
    case Id(id) => OkOr(SourceTypeById(c, id), BadType)
    case NoId => if req.typeName != "" then OkOr(SourceTypeByName(c, req.typeName), BadType) else Err(BadType)
  }

  function TypeOfApplication(c: Catalog, req: ApplicationReq): Result<AppType> {
    match req.typeId
    case BadId => Err(BadType)
    case Id(id) => OkOr(AppTypeById(c, id), BadType)
    case NoId => if req.typeName != "" then OkOr(AppTypeByName(c, req.typeName), BadType) else Err(BadType)
  }

  /** The only row whose name contains `v` is the one at `k`. */
  ghost predicate OnlyNameAt(names: seq<string>, v: string, k: nat) {
    k < |names| && forall j :: 0 <= j < |names| ==> (Contains(names[j], v) <==> j == k)
  }

  ghost predicate OnlyNamed<T(!new)>(rows: seq<T>, name: T -> string, v: string, t: T) {
    exists k: nat :: OnlyNameAt(Map(rows, name), v, k) && rows[k] == t
  }

  lemma PatternFindsOnly<T(!new)>(rows: seq<T>, name: T -> string, like: T -> bool, v: string)
    requires Plain(v) && forall t :: like(t) == Like(name(t), "%" + v + "%")
    ensures |Filter(rows, like)| == 1 ==> OnlyNamed(rows, name, v, Filter(rows, like)[0])
    ensures forall t :: OnlyNamed(rows, name, v, t) ==> Filter(rows, like) == [t]
  {
    ContainsExactly(v);
    assert forall k: nat :: OnlyNameAt(Map(rows, name), v, k) <==> OnlyAt(rows, like, k);
    if |Filter(rows, like)| == 1 {
      var k := OneIsOnly(rows, like);
    }
    forall t | OnlyNamed(rows, name, v, t) ensures Filter(rows, like) == [t] {
      var k: nat :| OnlyNameAt(Map(rows, name), v, k) && rows[k] == t;
      OnlyIsOne(rows, like, k);
    }
  }

  function SourceTypeName(t: SourceType): string { t.name }
  function AppTypeName(t: AppType): string { t.name }

  lemma SourceTypeByNameIs(c: Catalog, name: string, t: SourceType)
    requires Plain(name)
    ensures SourceTypeByName(c, name) == Some(t) <==> OnlyNamed(c.sourceTypes, SourceTypeName, name, t)
  {
    PatternFindsOnly(c.sourceTypes, SourceTypeName, (t: SourceType) => Like(t.name, "%" + name + "%"), name);
  }

  lemma AppTypeByNameIs(c: Catalog, name: string, t: AppType)
    requires Plain(name)
    ensures AppTypeByName(c, name) == Some(t) <==> OnlyNamed(c.appTypes, AppTypeName, name, t)
  {
    PatternFindsOnly(c.appTypes, AppTypeName, (t: AppType) => Like(t.name, "%" + name + "%"), name);
  }

  /** With unique ids, as the primary key has it, an id finds its row whatever the name; without an id, a
      name without wildcards finds the only row whose name contains it. */
  lemma TypeOfSourceIs(c: Catalog, req: SourceReq, t: SourceType)
    requires forall u, v :: u in c.sourceTypes && v in c.sourceTypes && u.id == v.id ==> u == v
    requires req.typeId.NoId? ==> Plain(req.typeName)
    ensures TypeOfSource(c, req) == Ok(t)
            <==> || (t in c.sourceTypes && req.typeId == Id(t.id))
                 || (req.typeId == NoId && req.typeName != ""
                     && OnlyNamed(c.sourceTypes, SourceTypeName, req.typeName, t))
  {
    match req.typeId
    case BadId =>
    case Id(id) =>
      var found := Filter(c.sourceTypes, (u: SourceType) => u.id == id);
      assert found != [] ==> found[0] in found;
    case NoId =>
      SourceTypeByNameIs(c, req.typeName, t);
  }

  /** The same for the type of an application. */
  lemma TypeOfApplicationIs(c: Catalog, req: ApplicationReq, t: AppType)
    requires forall u, v :: u in c.appTypes && v in c.appTypes && u.id == v.id ==> u == v
    requires req.typeId.NoId? ==> Plain(req.typeName)
    ensures TypeOfApplication(c, req) == Ok(t)
            <==> || (t in c.appTypes && req.typeId == Id(t.id))
                 || (req.typeId == NoId && req.typeName != ""
                     && OnlyNamed(c.appTypes, AppTypeName, req.typeName, t))
  {
    match req.typeId
    case BadId =>
    case Id(id) =>
      var found := Filter(c.appTypes, (u: AppType) => u.id == id);
      assert found != [] ==> found[0] in found;
    case NoId =>
      AppTypeByNameIs(c, req.typeName, t);
  }

  // ---- model/user_resource.go ----

  /** The text after the last slash. */
  function LastSegment(path: string): string {
    if path == "" then ""
    else if path[|path| - 1] == '/' then ""
    else LastSegment(path[..|path| - 1]) + [path[|path| - 1]]
  }

  lemma LastSegmentSnoc(path: string, ch: char)
    ensures LastSegment(path + [ch]) == if ch == '/' then "" else LastSegment(path) + [ch]
  {
    assert (path + [ch])[..|path|] == path;
  }

  /** It is what follows a slash when it has none itself. */
  lemma {:induction false} LastSegmentIs(front: string, last: string)
    requires '/' !in last
    ensures LastSegment(last) == last && LastSegment(front + "/" + last) == last
  {
    if last == "" {
      LastSegmentSnoc(front, '/');
      assert front + "/" + last == front + ['/'];
    } else {
      var rest, ch := last[..|last| - 1], last[|last| - 1];
      LastSegmentIs(front, rest);
      LastSegmentSnoc(front + "/" + rest, ch);
      assert front + "/" + last == front + "/" + rest + [ch];
    }
  }

  /** A snapshot of a UserResource. */
  datatype Ownership = Ownership(userId: string, sourceNames: seq<string>, typeNames: seq<string>) {
    predicate Active() {
      sourceNames != [] && typeNames != [] && userId != ""
    }

    predicate OwnsSource(name: string) {
      Active() && name in sourceNames
    }

    predicate OwnsApplication(typeName: string) {
      typeNames != [] && LastSegment(typeName) in typeNames
    }

    predicate OwnsBoth(name: string, typeName: string) {
      OwnsSource(name) && OwnsApplication(typeName)
    }
  }

  class UserResource {
    const userId: string
    var sourceNames: seq<string>
    var applicationTypesNames: seq<string>

    constructor (userId: string)
      ensures this.userId == userId && sourceNames == [] && applicationTypesNames == []
    {
      this.userId := userId;
      sourceNames, applicationTypesNames := [], [];
    }

    function Snapshot(): Ownership
      reads this
    {
      Ownership(userId, sourceNames, applicationTypesNames)
    }

    method AddSourceAndApplicationTypeNames(sourceName: string, applicationTypeName: string)
      modifies this
      ensures var was := old(Snapshot());
              Snapshot() == if userId == "" then was
                            else Ownership(userId, was.sourceNames + [sourceName],
                                           was.typeNames + [applicationTypeName])
    {
      if userId != "" {
        sourceNames := sourceNames + [sourceName];
        applicationTypesNames := applicationTypesNames + [applicationTypeName];
      }
    }
  }

  function UserOwned(c: Catalog): ApplicationReq -> bool {
    (req: ApplicationReq) => TypeOfApplication(c, req).Ok? && TypeOfApplication(c, req).value.userOwned
  }

  function SourceNameOf(req: ApplicationReq): string { req.sourceName }
  function TypeNameOf(req: ApplicationReq): string { req.typeName }

  /** What the requested applications entitle the user to. */
  function OwnershipOf(c: Catalog, userId: string, reqs: seq<ApplicationReq>): Ownership {
    var owned := if userId == "" then [] else Filter(reqs, UserOwned(c));
    Ownership(userId, Map(owned, SourceNameOf), Map(owned, TypeNameOf))
  }

  function WithApplication(c: Catalog, own: Ownership, req: ApplicationReq): Ownership {
    if own.userId == "" || !UserOwned(c)(req) then own
    else Ownership(own.userId, own.sourceNames + [req.sourceName], own.typeNames + [req.typeName])
  }

  lemma OneMoreApplication(c: Catalog, userId: string, reqs: seq<ApplicationReq>, i: nat)
    requires i < |reqs|
    ensures OwnershipOf(c, userId, reqs[..i + 1]) == WithApplication(c, OwnershipOf(c, userId, reqs[..i]), reqs[i])
  {
    assert reqs[..i + 1][..i] == reqs[..i];
    MapSnoc(Filter(reqs[..i], UserOwned(c)), reqs[i], SourceNameOf);
    MapSnoc(Filter(reqs[..i], UserOwned(c)), reqs[i], TypeNameOf);
  }

  /** `loadUserResourceSettingFromBulkCreateApplication` */
  method LoadSetting(c: Catalog, resource: UserResource, req: ApplicationReq) returns (found: Result<AppType>)
    modifies resource
    ensures found == TypeOfApplication(c, req)
    ensures resource.Snapshot() == WithApplication(c, old(resource.Snapshot()), req)
  {
    found := TypeOfApplication(c, req);
    if found.Ok? && found.value.userOwned {
      resource.AddSourceAndApplicationTypeNames(req.sourceName, req.typeName);
    }
  }

  /** The first `n` requested applications have types. */
  ghost predicate TypesFound(c: Catalog, reqs: seq<ApplicationReq>, n: nat) {
    forall k :: 0 <= k < n <= |reqs| ==> TypeOfApplication(c, reqs[k]).Ok?
  }

  lemma AllTypesFound(c: Catalog, reqs: seq<ApplicationReq>)
    ensures TypesFound(c, reqs, |reqs|) <==> forall req :: req in reqs ==> TypeOfApplication(c, req).Ok?
  {
  }

  /** `userResourceFromBulkCreateApplications`: fails on the first application without a type. */
  method UserResourceFromApplications(c: Catalog, userId: string, reqs: seq<ApplicationReq>)
      returns (r: Result<Ownership>)
    ensures r.Ok? <==> forall req :: req in reqs ==> TypeOfApplication(c, req).Ok?
    ensures r.Ok? ==> r.value == OwnershipOf(c, userId, reqs)
  {
    AllTypesFound(c, reqs);
    var resource := new UserResource(userId);
    for i := 0 to |reqs|
      invariant resource.Snapshot() == OwnershipOf(c, userId, reqs[..i])
      invariant TypesFound(c, reqs, i)
    {
      OneMoreApplication(c, userId, reqs, i);
      var found := LoadSetting(c, resource, reqs[i]);
      if found.Err? {
        return Err(found.error);
      }
    }
    assert reqs[..|reqs|] == reqs;
    r := Ok(resource.Snapshot());
  }

  /** A source is user-owned exactly when a user is present and some requested application of a
      user-owned type names it. */
  lemma OwnsSourceIff(c: Catalog, userId: string, reqs: seq<ApplicationReq>, name: string)
    ensures OwnershipOf(c, userId, reqs).OwnsSource(name)
            <==> userId != "" && exists req :: req in reqs && UserOwned(c)(req) && req.sourceName == name
  {
    var owned := Filter(reqs, UserOwned(c));
    InMap(owned, SourceNameOf, name);
    assert userId != "" ==>
        OwnershipOf(c, userId, reqs) == Ownership(userId, Map(owned, SourceNameOf), Map(owned, TypeNameOf));
    if userId != "" && name in Map(owned, SourceNameOf) {
      assert Map(owned, SourceNameOf) != [] && |Map(owned, TypeNameOf)| == |owned|;
    }
  }

  /** And an application type is the user's when its name, cut at the last slash, was requested with a
      user-owned type. */
  lemma OwnsApplicationIff(c: Catalog, userId: string, reqs: seq<ApplicationReq>, typeName: string)
    ensures OwnershipOf(c, userId, reqs).OwnsApplication(typeName)
            <==> userId != "" && exists req :: req in reqs && UserOwned(c)(req) && req.typeName == LastSegment(typeName)
  {
    var owned := Filter(reqs, UserOwned(c));
    InMap(owned, TypeNameOf, LastSegment(typeName));
    if userId == "" {
      assert OwnershipOf(c, userId, reqs).typeNames == [];
    } else {
      assert OwnershipOf(c, userId, reqs).typeNames == Map(owned, TypeNameOf);
    }
  }
}
