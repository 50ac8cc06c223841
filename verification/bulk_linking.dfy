/** service/bulk_create.go: parsing a bulk request and linking its resources by name.  That every resource
    was linked rests on one length comparison per kind. */
module BulkLinking {
  import opened Collections
  import opened LikePatterns
  import opened BulkModel

  // ---- sources ----

  function ParseSource(c: Catalog, own: Ownership, req: SourceReq): Result<Source> {
    match TypeOfSource(c, req)
    case Err(e) => Err(e)
    case Ok(t) =>
      if req.name == "" || req.name in c.takenNames || (req.status != "" && req.status !in VALID_STATUSES) || t.id < 1
      then Err(Invalid)
      else Ok(Source(0, req.name, t, own.OwnsSource(req.name), if req.status == "" then IN_PROGRESS else req.status))
  }

  /** A source request is accepted when it names an existing type, a name of its own and no status but the
      four known ones; "in_progress" is the status it gets otherwise. */
  lemma ParseSourceIs(c: Catalog, own: Ownership, req: SourceReq)
    ensures ParseSource(c, own, req).Ok?
            <==> && TypeOfSource(c, req).Ok? && TypeOfSource(c, req).value.id >= 1
                 && |req.name| > 0 && req.name !in c.takenNames
                 && req.status in ["", "available", "in_progress", "partially_available", "unavailable"]
    ensures ParseSource(c, own, req).Ok? ==>
              var s := ParseSource(c, own, req).value;
              && s.name == req.name && Ok(s.sourceType) == TypeOfSource(c, req)
              && (s.userOwned <==> own.OwnsSource(req.name))
              && s.status == if |req.status| > 0 then req.status else "in_progress"
  {
  }

  method ParseSources(c: Catalog, own: Ownership, reqs: seq<SourceReq>) returns (r: Result<seq<Source>>)
    ensures r.Ok? <==> forall req :: req in reqs ==> ParseSource(c, own, req).Ok?
    ensures r.Ok? ==> |r.value| == |reqs| && forall i :: 0 <= i < |reqs| ==>
          ParseSource(c, own, reqs[i]) == Ok(r.value[i])
  {
    var sources: seq<Source> := [];
    for i := 0 to |reqs|
      invariant |sources| == i
      invariant forall j :: 0 <= j < i ==> ParseSource(c, own, reqs[j]) == Ok(sources[j])
    {
      var parsed := ParseSource(c, own, reqs[i]);
      if parsed.Err? {
        assert reqs[i] in reqs;
        return Err(parsed.error);
      }
      sources := sources + [parsed.value];
    }
    r := Ok(sources);
  }

  // ---- applications ----

  function Named(name: string): Source -> bool {
    (s: Source) => s.name == name
  }

  /** The application a request turns into for one matching source. */
  function LinkedTo(c: Catalog, own: Ownership, req: ApplicationReq): Source -> Application
    requires TypeOfApplication(c, req).Ok?
  {
    (s: Source) => Application(0, TypeOfApplication(c, req).value, s.id, own.OwnsBoth(req.sourceName, req.typeName),
        IN_PROGRESS)
  }

  function LinksOf(c: Catalog, own: Ownership, sources: seq<Source>): ApplicationReq -> seq<Application> {
    (req: ApplicationReq) =>
      if TypeOfApplication(c, req).Ok? then Map(Filter(sources, Named(req.sourceName)), LinkedTo(c, own, req)) else []
  }

  /** All links the nested loops append: for each request, one for each source of its name. */
  function AllLinks(c: Catalog, own: Ownership, sources: seq<Source>, reqs: seq<ApplicationReq>): seq<Application> {
    FlatMap(reqs, LinksOf(c, own, sources))
  }

  predicate Acceptable(c: Catalog, sources: seq<Source>, req: ApplicationReq) {
    && TypeOfApplication(c, req).Ok?
    && forall s :: s in sources && s.name == req.sourceName ==>
          c.supports(TypeOfApplication(c, req).value, s.sourceType)
  }

  /** What the parser accepts: every request is acceptable, and there are as many links as requests. */
  predicate ApplicationsLink(c: Catalog, own: Ownership, sources: seq<Source>, reqs: seq<ApplicationReq>) {
    (forall req :: req in reqs ==> Acceptable(c, sources, req)) && |AllLinks(c, own, sources, reqs)| == |reqs|
  }

  lemma OneMoreMatch(c: Catalog, own: Ownership, sources: seq<Source>, req: ApplicationReq, i: nat)
    requires i < |sources| && TypeOfApplication(c, req).Ok?
    ensures LinksOf(c, own, sources[..i + 1])(req)
            == LinksOf(c, own, sources[..i])(req)
               + if sources[i].name == req.sourceName then [LinkedTo(c, own, req)(sources[i])] else []
  {
    assert sources[..i + 1][..i] == sources[..i];
    MapSnoc(Filter(sources[..i], Named(req.sourceName)), sources[i], LinkedTo(c, own, req));
  }

  /** The type of the request is supported by those of the first `n` sources that have its name. */
  ghost predicate SupportedUpTo(c: Catalog, sources: seq<Source>, req: ApplicationReq, n: nat)
    requires TypeOfApplication(c, req).Ok?
  {
    forall k :: 0 <= k < n <= |sources| && sources[k].name == req.sourceName ==>
      c.supports(TypeOfApplication(c, req).value, sources[k].sourceType)
  }

  lemma AllSupported(c: Catalog, sources: seq<Source>, req: ApplicationReq)
    requires TypeOfApplication(c, req).Ok?
    ensures SupportedUpTo(c, sources, req, |sources|) <==> Acceptable(c, sources, req)
  {
  }

  method LinkApplication(c: Catalog, own: Ownership, sources: seq<Source>, req: ApplicationReq)
      returns (r: Result<seq<Application>>)
    ensures r.Ok? <==> Acceptable(c, sources, req)
    ensures r.Ok? ==> r.value == LinksOf(c, own, sources)(req)
  {
    var found := TypeOfApplication(c, req);
    if found.Err? {
      return Err(found.error);
    }
    AllSupported(c, sources, req);
    var links: seq<Application> := [];
    for i := 0 to |sources|
      invariant links == LinksOf(c, own, sources[..i])(req)
      invariant SupportedUpTo(c, sources, req, i)
    {
      OneMoreMatch(c, own, sources, req, i);
      if sources[i].name == req.sourceName {
        if !c.supports(found.value, sources[i].sourceType) {
          return Err(Incompatible);
        }
        links := links + [LinkedTo(c, own, req)(sources[i])];
      }
    }
    assert sources[..|sources|] == sources;
    r := Ok(links);
  }

  method ParseApplications(c: Catalog, own: Ownership, sources: seq<Source>, reqs: seq<ApplicationReq>)
      returns (r: Result<seq<Application>>)
    ensures r.Ok? <==> ApplicationsLink(c, own, sources, reqs)
    ensures r.Ok? ==> r.value == AllLinks(c, own, sources, reqs)
  {
    var applications: seq<Application> := [];
    for i := 0 to |reqs|
      invariant applications == AllLinks(c, own, sources, reqs[..i])
      invariant forall req :: req in reqs[..i] ==> Acceptable(c, sources, req)
    {
      assert reqs[..i + 1][..i] == reqs[..i];
      assert reqs[..i + 1] == reqs[..i] + [reqs[i]];
      var linked := LinkApplication(c, own, sources, reqs[i]);
      if linked.Err? {
        assert reqs[i] in reqs;
        return Err(linked.error);
      }
      applications := applications + linked.value;
    }
    assert reqs[..|reqs|] == reqs;
    if |applications| != |reqs| {
      return Err(NotAllLinked);
    }
    r := Ok(applications);
  }

  ghost predicate DistinctNames(sources: seq<Source>) {
    forall i, j :: 0 <= i < j < |sources| ==> sources[i].name != sources[j].name
  }

  ghost predicate IsLinkOf(c: Catalog, own: Ownership, sources: seq<Source>, req: ApplicationReq, app: Application) {
    && TypeOfApplication(c, req).Ok?
    && exists s :: s in sources && s.name == req.sourceName && app == LinkedTo(c, own, req)(s)
  }

  /** Application `i` is request `i`, linked to a source of the requested name. */
  ghost predicate LinkedInOrder(c: Catalog, own: Ownership, sources: seq<Source>, reqs: seq<ApplicationReq>,
                                apps: seq<Application>) {
    |apps| == |reqs| && forall i :: 0 <= i < |reqs| ==> IsLinkOf(c, own, sources, reqs[i], apps[i])
  }

  lemma {:induction false} AtMostOneMatch(sources: seq<Source>, name: string)
    requires DistinctNames(sources)
    ensures |Filter(sources, Named(name))| <= 1
  {
    if sources != [] {
      var front, last := sources[..|sources| - 1], sources[|sources| - 1];
      AtMostOneMatch(front, name);
      if last.name == name {
        FilterNone(front, Named(name));
      }
    }
  }

  lemma AtMostOneLink(c: Catalog, own: Ownership, sources: seq<Source>, req: ApplicationReq)
    requires DistinctNames(sources)
    ensures |LinksOf(c, own, sources)(req)| <= 1
  {
    AtMostOneMatch(sources, req.sourceName);
  }

  lemma OneLink(c: Catalog, own: Ownership, sources: seq<Source>, req: ApplicationReq)
    requires |LinksOf(c, own, sources)(req)| == 1
    ensures IsLinkOf(c, own, sources, req, LinksOf(c, own, sources)(req)[0])
  {
    var found := Filter(sources, Named(req.sourceName));
    assert found[0] in found;
  }

  /** With at most one match a request, a total of |reqs| matches leaves none without. */
  lemma OneLinkEach(c: Catalog, own: Ownership, sources: seq<Source>, reqs: seq<ApplicationReq>)
    requires forall req :: req in reqs ==> |LinksOf(c, own, sources)(req)| <= 1
    requires |AllLinks(c, own, sources, reqs)| == |reqs|
    ensures LinkedInOrder(c, own, sources, reqs, AllLinks(c, own, sources, reqs))
  {
    OneEach(reqs, LinksOf(c, own, sources));
    forall i | 0 <= i < |reqs| ensures IsLinkOf(c, own, sources, reqs[i], AllLinks(c, own, sources, reqs)[i]) {
      OneLink(c, own, sources, reqs[i]);
    }
  }

  /** In particular with distinct names. */
  lemma CountingLinksInOrder(c: Catalog, own: Ownership, sources: seq<Source>, reqs: seq<ApplicationReq>)
    requires DistinctNames(sources)
    requires |AllLinks(c, own, sources, reqs)| == |reqs|
    ensures LinkedInOrder(c, own, sources, reqs, AllLinks(c, own, sources, reqs))
  {
    forall req | req in reqs ensures |LinksOf(c, own, sources)(req)| <= 1 {
      AtMostOneLink(c, own, sources, req);
    }
    OneLinkEach(c, own, sources, reqs);
  }

  lemma NoLink(c: Catalog, own: Ownership, sources: seq<Source>, req: ApplicationReq)
    requires forall s :: s in sources ==> s.name != req.sourceName
    ensures LinksOf(c, own, sources)(req) == []
  {
    FilterNone(sources, Named(req.sourceName));
  }

  /** A name longer than all the sources' names. */
  function FreshName(sources: seq<Source>): (name: string)
    ensures forall s :: s in sources ==> |s.name| < |name|
  {
    if sources == [] then "x"
    else
      var front := FreshName(sources[..|sources| - 1]);
      assert forall s :: s in sources ==> s in sources[..|sources| - 1] || s == sources[|sources| - 1];
      front + sources[|sources| - 1].name
  }

  /** The type of the request, put on a source of another name. */
  function OnSource(req: ApplicationReq, name: string): ApplicationReq {
    ApplicationReq(req.typeId, req.typeName, name)
  }

  /** One request, followed by `n` that match nothing. */
  function Diluted(twice: ApplicationReq, never: ApplicationReq, n: nat): (r: seq<ApplicationReq>)
    ensures |r| == n + 1 && r[0] == twice && forall i :: 0 < i <= n ==> r[i] == never
  {
    [twice] + Repeat(never, n)
  }

  lemma DilutedLinks<T>(twice: ApplicationReq, never: ApplicationReq, n: nat, links: ApplicationReq -> seq<T>)
    requires links(never) == []
    ensures FlatMap(Diluted(twice, never, n), links) == links(twice)
  {
    FlatMapNothing([twice], never, n, links);
    FlatMapOne(twice, links);
  }

  lemma NeverMatches(c: Catalog, own: Ownership, sources: seq<Source>, req: ApplicationReq)
    requires Acceptable(c, sources, req)
    ensures var never := OnSource(req, FreshName(sources));
            Acceptable(c, sources, never) && LinksOf(c, own, sources)(never) == []
  {
    NoLink(c, own, sources, OnSource(req, FreshName(sources)));
  }

  /** An acceptable request that matches two sources defeats the counting check: the parser accepts a list
      in which its extra links stand in for the missing links of other requests. */
  lemma TwoMatchesDefeatCounting(c: Catalog, own: Ownership, sources: seq<Source>, twice: ApplicationReq)
      returns (reqs: seq<ApplicationReq>)
    requires Acceptable(c, sources, twice) && |Filter(sources, Named(twice.sourceName))| >= 2
    ensures ApplicationsLink(c, own, sources, reqs)
    ensures !LinkedInOrder(c, own, sources, reqs, AllLinks(c, own, sources, reqs))
  {
    var never, links := OnSource(twice, FreshName(sources)), LinksOf(c, own, sources);
    NeverMatches(c, own, sources, twice);
    reqs := Diluted(twice, never, |links(twice)| - 1);
    DilutedLinks(twice, never, |links(twice)| - 1, links);
    LinkedHasSource(c, own, sources, reqs, AllLinks(c, own, sources, reqs), 1);
  }

  lemma LinkedHasSource(c: Catalog, own: Ownership, sources: seq<Source>, reqs: seq<ApplicationReq>,
                        apps: seq<Application>, i: nat)
    requires i < |reqs|
    ensures LinkedInOrder(c, own, sources, reqs, apps) ==> exists s :: s in sources && s.name == reqs[i].sourceName
  {
    if LinkedInOrder(c, own, sources, reqs, apps) {
      assert IsLinkOf(c, own, sources, reqs[i], apps[i]);
    }
  }

  lemma {:induction false} TwoMatches(sources: seq<Source>, i: nat, j: nat)
    requires i < j < |sources| && sources[i].name == sources[j].name
    ensures |Filter(sources, Named(sources[i].name))| >= 2
  {
    var front := sources[..|sources| - 1];
    if j == |sources| - 1 {
      assert front[i] in Filter(front, Named(sources[i].name));
    } else {
      TwoMatches(front, i, j);
    }
  }

  /** Some request can name this type, by id or by name. */
  ghost predicate Offered(c: Catalog, t: AppType) {
    exists req :: TypeOfApplication(c, req) == Ok(t)
  }

  /** With unique ids, as the primary key has it, the offered types are those of the table. */
  lemma OfferedIff(c: Catalog, t: AppType)
    requires forall u, v :: u in c.appTypes && v in c.appTypes && u.id == v.id ==> u == v
    ensures Offered(c, t) <==> t in c.appTypes
  {
    if t in c.appTypes {
      var found := Filter(c.appTypes, (u: AppType) => u.id == t.id);
      assert t in found && found[0] in found;
      assert TypeOfApplication(c, ApplicationReq(Id(t.id), "", "")) == Ok(t);
    }
    if req :| TypeOfApplication(c, req) == Ok(t) {
      TypesComeFromTable(c, req);
    }
  }

  lemma TypesComeFromTable(c: Catalog, req: ApplicationReq)
    ensures TypeOfApplication(c, req).Ok? ==> TypeOfApplication(c, req).value in c.appTypes
  {
    match req.typeId
    case BadId =>
    case Id(id) =>
      var found := Filter(c.appTypes, (t: AppType) => t.id == id);
      assert found != [] ==> found[0] in found;
    case NoId =>
      var found := Filter(c.appTypes, (t: AppType) => Like(t.name, "%" + req.typeName + "%"));
      assert found != [] ==> found[0] in found;
  }

  /** Two sources share a name, and all sources of that name support one offered application type. */
  ghost predicate NameIsAmbiguous(c: Catalog, sources: seq<Source>) {
    exists i, j, t :: 0 <= i < j < |sources| && Clash(c, sources, i, j, t)
  }

  ghost predicate Clash(c: Catalog, sources: seq<Source>, i: nat, j: nat, t: AppType)
    requires i < j < |sources|
  {
    && sources[i].name == sources[j].name
    && Offered(c, t)
    && forall s :: s in sources && s.name == sources[i].name ==> c.supports(t, s.sourceType)
  }

  ghost predicate CountingIsSound(c: Catalog, own: Ownership, sources: seq<Source>) {
    forall reqs :: ApplicationsLink(c, own, sources, reqs) ==>
      LinkedInOrder(c, own, sources, reqs, AllLinks(c, own, sources, reqs))
  }

  lemma {:induction false} TwoOfAName(sources: seq<Source>, name: string) returns (i: nat, j: nat)
    requires |Filter(sources, Named(name))| >= 2
    ensures i < j < |sources| && sources[i].name == sources[j].name == name
  {
    var front, last := sources[..|sources| - 1], sources[|sources| - 1];
    if |Filter(front, Named(name))| >= 2 {
      i, j := TwoOfAName(front, name);
    } else {
      assert last.name == name && Filter(front, Named(name))[0] in front;
      i :| 0 <= i < |front| && front[i] == Filter(front, Named(name))[0];
      j := |sources| - 1;
    }
  }

  lemma UnambiguousMatchesOnce(c: Catalog, sources: seq<Source>, req: ApplicationReq)
    requires !NameIsAmbiguous(c, sources) && Acceptable(c, sources, req)
    ensures |Filter(sources, Named(req.sourceName))| <= 1
  {
    if |Filter(sources, Named(req.sourceName))| >= 2 {
      var i, j := TwoOfAName(sources, req.sourceName);
      assert Clash(c, sources, i, j, TypeOfApplication(c, req).value);
    }
  }

  /** The length check guarantees that every application of every request the parser accepts was linked, in
      order, to a source of its name, if and only if no name is ambiguous. */
  lemma CountingIsSoundIff(c: Catalog, own: Ownership, sources: seq<Source>)
    ensures CountingIsSound(c, own, sources) <==> !NameIsAmbiguous(c, sources)
  {
    if NameIsAmbiguous(c, sources) {
      var i, j, t :| 0 <= i < j < |sources| && Clash(c, sources, i, j, t);
      AmbiguityDefeatsCounting(c, own, sources, i, j, t);
    } else {
      forall reqs | ApplicationsLink(c, own, sources, reqs)
        ensures LinkedInOrder(c, own, sources, reqs, AllLinks(c, own, sources, reqs))
      {
        UnambiguousLinksInOrder(c, own, sources, reqs);
      }
    }
  }

  lemma AmbiguityDefeatsCounting(c: Catalog, own: Ownership, sources: seq<Source>, i: nat, j: nat, t: AppType)
    requires i < j < |sources| && Clash(c, sources, i, j, t)
    ensures !CountingIsSound(c, own, sources)
  {
    var req :| TypeOfApplication(c, req) == Ok(t);
    TwoMatches(sources, i, j);
    var reqs := TwoMatchesDefeatCounting(c, own, sources, OnSource(req, sources[i].name));
  }

  lemma UnambiguousLinksInOrder(c: Catalog, own: Ownership, sources: seq<Source>, reqs: seq<ApplicationReq>)
    requires !NameIsAmbiguous(c, sources) && ApplicationsLink(c, own, sources, reqs)
    ensures LinkedInOrder(c, own, sources, reqs, AllLinks(c, own, sources, reqs))
  {
    forall req | req in reqs ensures |LinksOf(c, own, sources)(req)| <= 1 {
      UnambiguousMatchesOnce(c, sources, req);
    }
    OneLinkEach(c, own, sources, reqs);
  }

  // ---- endpoints ----

  /** The loop keeps the last matching source; without one the raw id of the request stays. */
  function EndpointSource(sources: seq<Source>, req: EndpointReq): RawId {
    var matches := Filter(sources, Named(req.sourceName));
    if matches == [] then req.sourceId else Id(matches[|matches| - 1].id)
  }

  function ParseEndpoint(c: Catalog, sources: seq<Source>, req: EndpointReq): Result<Endpoint> {
    var raw := EndpointSource(sources, req);
    if raw.Id? && raw.value >= 1 && c.endpointOk(req, raw.value)
        then Ok(Endpoint(0, req.host, raw.value)) else Err(Invalid)
  }

  /** One endpoint a request, in order.  The length comparison after the loop never fails, so an endpoint
      whose source name matches nothing is not refused for that. */
  method ParseEndpoints(c: Catalog, sources: seq<Source>, reqs: seq<EndpointReq>) returns (r: Result<seq<Endpoint>>)
    ensures r.Ok? <==> forall req :: req in reqs ==> ParseEndpoint(c, sources, req).Ok?
    ensures r.Ok? ==> |r.value| == |reqs| && forall i :: 0 <= i < |reqs| ==>
          ParseEndpoint(c, sources, reqs[i]) == Ok(r.value[i])
    ensures r.Err? ==> r.error != NotAllLinked
  {
    var endpoints: seq<Endpoint> := [];
    for i := 0 to |reqs|
      invariant |endpoints| == i
      invariant forall j :: 0 <= j < i ==> ParseEndpoint(c, sources, reqs[j]) == Ok(endpoints[j])
    {
      var req := reqs[i];
      var raw := req.sourceId;
      for k := 0 to |sources|
        invariant raw == EndpointSource(sources[..k], req)
      {
        assert sources[..k + 1][..k] == sources[..k];
        if sources[k].name == req.sourceName {
          raw := Id(sources[k].id);
        }
      }
      assert sources[..|sources|] == sources;
      if !raw.Id? || raw.value < 1 || !c.endpointOk(req, raw.value) {
        assert reqs[i] in reqs;
        return Err(Invalid);
      }
      endpoints := endpoints + [Endpoint(0, req.host, raw.value)];
    }
    if |endpoints| != |reqs| {
      return Err(NotAllLinked);
    }
    r := Ok(endpoints);
  }

  /** An endpoint belongs to the source of its name when there is one, and otherwise to whatever source id
      the request carried. */
  lemma EndpointSourceIs(c: Catalog, sources: seq<Source>, req: EndpointReq)
    requires DistinctNames(sources) && ParseEndpoint(c, sources, req).Ok?
    ensures var e := ParseEndpoint(c, sources, req).value;
            && (forall s :: s in sources && s.name == req.sourceName ==> e.sourceId == s.id)
            && ((forall s :: s in sources ==> s.name != req.sourceName) ==> req.sourceId == Id(e.sourceId))
  {
    AtMostOneMatch(sources, req.sourceName);
    forall s | s in sources && s.name == req.sourceName ensures Filter(sources, Named(req.sourceName)) == [s] {
      assert s in Filter(sources, Named(req.sourceName));
    }
    if Filter(sources, Named(req.sourceName)) != [] {
      assert Filter(sources, Named(req.sourceName))[0] in sources;
    }
  }

  // ---- authentications ----

  function OfType(id: int): Application -> bool {
    (a: Application) => a.appType.id == id
  }

  function HostContains(name: string): Endpoint -> bool {
    (e: Endpoint) => HasInfix(Lower(e.host), Lower(name))
  }

  predicate HasInfix(s: string, v: string) {
    exists i | 0 <= i <= |s| :: v <= s[i..]
  }

  lemma HasInfixIff(s: string, v: string)
    ensures HasInfix(s, v) <==> exists front, back :: s == front + v + back
  {
    if HasInfix(s, v) {
      var i :| 0 <= i <= |s| && v <= s[i..];
      assert s == s[..i] + v + s[i + |v|..];
    }
    if front, back :| s == front + v + back {
      assert s[|front|..] == v + back;
    }
  }

  /** `linkupApplication`: the first application of the named type, on whatever source. */
  function LinkupApplication(c: Catalog, name: string, apps: seq<Application>): Result<int> {
    match AppTypeByName(c, name)
    case None => Err(BadType)
    case Some(t) =>
      var found := Filter(apps, OfType(t.id));
      if found == [] then Err(NotLinked) else Ok(found[0].id)
  }

  /** `linkupEndpoint`: the first endpoint whose host contains the name, ignoring case. */
  function LinkupEndpoint(name: string, endpoints: seq<Endpoint>): Result<int> {
    var found := Filter(endpoints, HostContains(name));
    if found == [] then Err(NotLinked) else Ok(found[0].id)
  }

  datatype Created = Created(sources: seq<Source>, applications: seq<Application>, endpoints: seq<Endpoint>)

  /** The existing resource a numeric name refers to. */
  function ExistingTarget(c: Catalog, req: AuthReq): Option<int> {
    match c.parseInt(req.resourceName)
    case None => None
    case Some(id) => if req.resourceType != OtherResource && c.existing(req.resourceType, id) then Some(id) else None
  }

  function NewTarget(c: Catalog, made: Created, req: AuthReq): Result<int>
    requires made.sources != []
  {
    match req.resourceType
    case SourceResource => Ok(made.sources[0].id)
    case ApplicationResource => LinkupApplication(c, req.resourceName, made.applications)
    case EndpointResource => LinkupEndpoint(req.resourceName, made.endpoints)
    case OtherResource => Err(Invalid)
  }

  predicate AuthUserOwned(own: Ownership, made: Created, req: AuthReq)
    requires made.sources != []
  {
    match req.resourceType
    case SourceResource => own.OwnsSource(made.sources[0].name)
    case ApplicationResource => own.OwnsBoth(made.sources[0].name, req.resourceName)
    case _ => false
  }

  /** One turn of the linking loop: an error, a silent skip when the resource id came out as 0, or the
      linked authentication.  `Sources[0]` is read without a check. */
  function LinkAuthentication(c: Catalog, own: Ownership, made: Created, req: AuthReq): Result<Option<Authentication>>
    requires made.sources != []
  {
    if !req.encodable then Err(StoreError)
    else match ExistingTarget(c, req)
      case Some(id) => Ok(Some(Authentication(0, req.resourceType, id, 0, false, IN_PROGRESS)))
      case None =>
        match NewTarget(c, made, req)
        case Err(e) => Err(e)
        case Ok(id) =>
          if !req.valid then Err(Invalid)
          else if id == 0 then Ok(None)
          else Ok(Some(Authentication(0, req.resourceType, id, made.sources[0].id,
              AuthUserOwned(own, made, req), IN_PROGRESS)))
  }

  /** A name that is the id of an existing source, application or endpoint refers to it. */
  lemma ExistingTargetIff(c: Catalog, req: AuthReq, id: int)
    ensures ExistingTarget(c, req) == Some(id)
            <==> && c.parseInt(req.resourceName) == Some(id) && c.existing(req.resourceType, id)
                 && req.resourceType in [SourceResource, ApplicationResource, EndpointResource]
  {
  }

  /** A request links when its secret can be stored and it names an existing resource, or it is valid and
      something created answers to it: any source, the application or the endpoint named. */
  lemma LinksIff(c: Catalog, own: Ownership, made: Created, req: AuthReq)
    requires made.sources != []
    requires forall s :: s in made.sources ==> s.id > 0
    requires forall a :: a in made.applications ==> a.id > 0
    requires forall e :: e in made.endpoints ==> e.id > 0
    ensures var linked := LinkAuthentication(c, own, made, req);
            && (linked.Ok? ==> linked.value.Some?)
            && (linked.Ok? <==> && req.encodable
                                && (ExistingTarget(c, req).Some? || (req.valid && Answered(c, made, req))))
  {
  }

  ghost predicate Answered(c: Catalog, made: Created, req: AuthReq) {
    match req.resourceType
    case SourceResource => true
    case ApplicationResource =>
      exists a, t :: a in made.applications && AppTypeByName(c, req.resourceName) == Some(t) && a.appType.id == t.id
    case EndpointResource => exists e :: e in made.endpoints && HasInfix(Lower(e.host), Lower(req.resourceName))
    case OtherResource => false
  }

  /** On success each authentication is the link of its own request, in request order: the length check
      rules out every skip. */
  method LinkUpAuthentications(c: Catalog, own: Ownership, made: Created, reqs: seq<AuthReq>)
      returns (r: Result<seq<Authentication>>)
    requires made.sources != []
    ensures r.Ok? <==> forall req :: req in reqs ==> LinkAuthentication(c, own, made, req).Ok?
                                                     && LinkAuthentication(c, own, made, req).value.Some?
    ensures r.Ok? ==> |r.value| == |reqs|
    ensures r.Ok? ==> forall i :: 0 <= i < |reqs| ==> LinkAuthentication(c, own, made, reqs[i]) == Ok(Some(r.value[i]))
  {
    var auths: seq<Authentication> := [];
    for i := 0 to |reqs|
      invariant |auths| <= i
      invariant forall req :: req in reqs[..i] ==> LinkAuthentication(c, own, made, req).Ok?
      invariant |auths| == i <==> forall req :: req in reqs[..i] ==> LinkAuthentication(c, own, made, req).value.Some?
      invariant |auths| == i ==> forall j :: 0 <= j < i ==>
            LinkAuthentication(c, own, made, reqs[j]) == Ok(Some(auths[j]))
    {
      assert reqs[..i + 1] == reqs[..i] + [reqs[i]];
      var linked := LinkAuthentication(c, own, made, reqs[i]);
      if linked.Err? {
        assert reqs[i] in reqs;
        return Err(linked.error);
      }
      if linked.value.Some? {
        auths := auths + [linked.value.value];
      }
    }
    assert reqs[..|reqs|] == reqs;
    if |auths| != |reqs| {
      return Err(NotAllLinked);
    }
    r := Ok(auths);
  }
}
