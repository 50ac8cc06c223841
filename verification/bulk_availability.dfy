/** `setCorrespondingResourcesAsAvailable`: sources, applications and authentications that cannot be
    checked are set available, in the request's slices and in the tables. */
module BulkAvailability {
  import opened Collections
  import opened BulkModel

  predicate ShouldSetAvailable(s: Source, a: Application) {
    || (s.sourceType.name == "amazon" && a.appType.name == "/insights/platform/image-builder")
    || (s.sourceType.name == "google" && a.appType.name == "/insights/platform/cloud-meter")
  }

  predicate Qualify(s: Source, a: Application) {
    a.sourceId == s.id && ShouldSetAvailable(s, a)
  }

  // ---- the declarative specification ----

  predicate ApplicationQualifies(sources: seq<Source>, a: Application) {
    exists s :: s in sources && Qualify(s, a)
  }

  predicate SourceQualifies(applications: seq<Application>, s: Source) {
    exists a :: a in applications && Qualify(s, a)
  }

  predicate AuthenticationQualifies(sources: seq<Source>, applications: seq<Application>, t: Authentication) {
    || (t.resourceType.SourceResource?
        && exists s :: s in sources && SourceQualifies(applications, s) && s.id == t.resourceId)
    || (t.resourceType.ApplicationResource?
        && exists a :: a in applications && ApplicationQualifies(sources, a) && a.id == t.resourceId)
  }

  function ApplicationAfter(sources: seq<Source>): Application -> Application {
    (a: Application) => if ApplicationQualifies(sources, a) then a.(status := AVAILABLE) else a
  }

  function SourceAfter(applications: seq<Application>): Source -> Source {
    (s: Source) => if SourceQualifies(applications, s) then s.(status := AVAILABLE) else s
  }

  function AuthenticationAfter(sources: seq<Source>, applications: seq<Application>): Authentication -> Authentication {
    (t: Authentication) => if AuthenticationQualifies(sources, applications, t) then t.(status := AVAILABLE) else t
  }

  // ---- the id lists the loops collect ----

  function QualifiesFor(s: Source): Application -> bool {
    (a: Application) => Qualify(s, a)
  }

  function SourceIsListed(applications: seq<Application>): Source -> bool {
    (s: Source) => Filter(applications, QualifiesFor(s)) != []
  }

  predicate IsListed(sourceIds: seq<int>, applicationIds: seq<int>, t: Authentication) {
    || (t.resourceType.SourceResource? && t.resourceId in sourceIds)
    || (t.resourceType.ApplicationResource? && t.resourceId in applicationIds)
  }

  function AuthenticationIsListed(sourceIds: seq<int>, applicationIds: seq<int>): Authentication -> bool {
    (t: Authentication) => IsListed(sourceIds, applicationIds, t)
  }

  function SourceId(s: Source): int { s.id }
  function ApplicationId(a: Application): int { a.id }
  function AuthenticationId(t: Authentication): int { t.id }

  function SourceIds(sources: seq<Source>, applications: seq<Application>): seq<int> {
    Map(Filter(sources, SourceIsListed(applications)), SourceId)
  }

  function IdsFor(s: Source, applications: seq<Application>): seq<int> {
    Map(Filter(applications, QualifiesFor(s)), ApplicationId)
  }

  function IdsIn(applications: seq<Application>): Source -> seq<int> {
    (s: Source) => IdsFor(s, applications)
  }

  /** Source by source; an application is listed once for every source it qualifies with. */
  function ApplicationIds(sources: seq<Source>, applications: seq<Application>): seq<int> {
    FlatMap(sources, IdsIn(applications))
  }

  function AuthenticationIds(sourceIds: seq<int>, applicationIds: seq<int>,
                             authentications: seq<Authentication>): seq<int> {
    Map(Filter(authentications, AuthenticationIsListed(sourceIds, applicationIds)), AuthenticationId)
  }

  lemma QualifiesIffFound(applications: seq<Application>, s: Source)
    ensures SourceQualifies(applications, s) <==> SourceIsListed(applications)(s)
  {
    var found := Filter(applications, QualifiesFor(s));
    if found != [] {
      assert found[0] in found;
    }
  }

  lemma SourceIdsAre(sources: seq<Source>, applications: seq<Application>, id: int)
    ensures id in SourceIds(sources, applications)
            <==> exists s :: s in sources && SourceQualifies(applications, s) && s.id == id
  {
    InMap(Filter(sources, SourceIsListed(applications)), SourceId, id);
    forall s ensures SourceQualifies(applications, s) <==> SourceIsListed(applications)(s) {
      QualifiesIffFound(applications, s);
    }
  }

  lemma IdsForAre(s: Source, applications: seq<Application>, id: int)
    ensures id in IdsFor(s, applications) <==> exists a :: a in applications && Qualify(s, a) && a.id == id
  {
    InMap(Filter(applications, QualifiesFor(s)), ApplicationId, id);
  }

  lemma ApplicationIdsAre(sources: seq<Source>, applications: seq<Application>, id: int)
    ensures id in ApplicationIds(sources, applications)
            <==> exists a :: a in applications && ApplicationQualifies(sources, a) && a.id == id
  {
    InFlatMap(sources, IdsIn(applications), id);
    if s :| s in sources && id in IdsIn(applications)(s) {
      IdsForAre(s, applications, id);
    }
    if a :| a in applications && ApplicationQualifies(sources, a) && a.id == id {
      var s :| s in sources && Qualify(s, a);
      IdsForAre(s, applications, id);
      assert id in IdsIn(applications)(s);
    }
  }

  lemma AuthenticationListedIff(sources: seq<Source>, applications: seq<Application>, t: Authentication)
    ensures AuthenticationIsListed(SourceIds(sources, applications), ApplicationIds(sources, applications))(t)
            <==> AuthenticationQualifies(sources, applications, t)
  {
    SourceIdsAre(sources, applications, t.resourceId);
    ApplicationIdsAre(sources, applications, t.resourceId);
  }

  lemma OneMoreSource(before: seq<Source>, s: Source, a: Application)
    ensures ApplicationQualifies(before + [s], a) <==> ApplicationQualifies(before, a) || Qualify(s, a)
  {
    assert s in before + [s];
  }

  // ---- the loops ----

  function MarkIf(s: Source): Application -> Application {
    (a: Application) => if Qualify(s, a) then a.(status := AVAILABLE) else a
  }

  lemma InnerTurn(s: Source, start: seq<Application>, j: nat)
    requires j < |start|
    ensures var ids := IdsFor(s, start[..j]);
            IdsFor(s, start[..j + 1]) == if Qualify(s, start[j]) then ids + [start[j].id] else ids
  {
    assert start[..j + 1][..j] == start[..j];
    MapSnoc(Filter(start[..j], QualifiesFor(s)), start[j], ApplicationId);
  }

  /** An array whose elements are the images of those of `xs` holds the mapped sequence. */
  lemma MapIs<S, T>(xs: seq<S>, ys: seq<T>, f: S -> T)
    requires |ys| == |xs| && forall k :: 0 <= k < |xs| ==> ys[k] == f(xs[k])
    ensures ys == Map(xs, f)
  {
  }

  /** One turn of the inner loop. */
  method MarkApplication(s: Source, j: nat, applications: array<Application>, shouldUpdate: bool, ids: seq<int>)
      returns (shouldUpdate': bool, ids': seq<int>)
    requires j < applications.Length
    modifies applications
    ensures forall k :: 0 <= k < applications.Length && k != j ==> applications[k] == old(applications[k])
    ensures var a := old(applications[j]);
            if Qualify(s, a)
            then applications[j] == a.(status := AVAILABLE) && shouldUpdate' && ids' == ids + [a.id]
            else applications[j] == a && shouldUpdate' == shouldUpdate && ids' == ids
  {
    var application := applications[j];
    shouldUpdate', ids' := shouldUpdate, ids;
    if application.sourceId == s.id && ShouldSetAvailable(s, application) {
      applications[j] := application.(status := AVAILABLE);
      ids' := ids + [application.id];
      shouldUpdate' := true;
    }
  }

  /** The inner loop: the applications of one source. */
  method MarkApplications(s: Source, applications: array<Application>) returns (shouldUpdate: bool, ids: seq<int>)
    modifies applications
    ensures applications[..] == Map(old(applications[..]), MarkIf(s))
    ensures ids == IdsFor(s, old(applications[..]))
    ensures shouldUpdate <==> ids != []
  {
    ghost var start, mark := applications[..], MarkIf(s);
    shouldUpdate, ids := false, [];
    for j := 0 to applications.Length
      invariant forall k :: 0 <= k < j ==> applications[k] == mark(start[k])
      invariant forall k :: j <= k < applications.Length ==> applications[k] == start[k]
      invariant shouldUpdate <==> ids != []
      invariant ids == IdsFor(s, start[..j])
    {
      InnerTurn(s, start, j);
      shouldUpdate, ids := MarkApplication(s, j, applications, shouldUpdate, ids);
    }
    assert start[..|start|] == start;
    MapIs(start, applications[..], mark);
  }

  /** The applications after the inner loop ran for each of the sources in turn. */
  function MarkAll(sources: seq<Source>, applications: seq<Application>): (r: seq<Application>)
    ensures |r| == |applications|
  {
    if sources == [] then applications
    else Map(MarkAll(sources[..|sources| - 1], applications), MarkIf(sources[|sources| - 1]))
  }

  lemma {:induction false} MarkAllIs(sources: seq<Source>, applications: seq<Application>, k: nat)
    requires k < |applications|
    ensures MarkAll(sources, applications)[k] == ApplicationAfter(sources)(applications[k])
  {
    if sources != [] {
      var front, last := sources[..|sources| - 1], sources[|sources| - 1];
      MarkAllIs(front, applications, k);
      OneMoreSource(front, last, applications[k]);
      assert front + [last] == sources;
    }
  }

  lemma {:induction false} FilterThroughMap(xs: seq<Application>, ys: seq<Application>, p: Application -> bool)
    requires |xs| == |ys| && forall k :: 0 <= k < |xs| ==> p(ys[k]) == p(xs[k]) && ys[k].id == xs[k].id
    ensures Map(Filter(ys, p), ApplicationId) == Map(Filter(xs, p), ApplicationId)
  {
    if xs != [] {
      FilterThroughMap(xs[..|xs| - 1], ys[..|ys| - 1], p);
      MapSnoc(Filter(xs[..|xs| - 1], p), xs[|xs| - 1], ApplicationId);
      MapSnoc(Filter(ys[..|ys| - 1], p), ys[|ys| - 1], ApplicationId);
    }
  }

  /** Marking an application does not change what it qualifies for. */
  lemma MarksKeepQualifying(applications: seq<Application>, before: seq<Source>, s: Source)
    ensures IdsFor(s, MarkAll(before, applications)) == IdsFor(s, applications)
  {
    forall k | 0 <= k < |applications|
      ensures QualifiesFor(s)(MarkAll(before, applications)[k]) == QualifiesFor(s)(applications[k])
      ensures MarkAll(before, applications)[k].id == applications[k].id
    {
      MarkAllIs(before, applications, k);
    }
    FilterThroughMap(applications, MarkAll(before, applications), QualifiesFor(s));
  }

  function MarkIfListed(applications: seq<Application>): Source -> Source {
    (s: Source) => if SourceIsListed(applications)(s) then s.(status := AVAILABLE) else s
  }

  /** One turn of the outer loop, on values. */
  lemma OuterTurn(ss: seq<Source>, aa: seq<Application>, i: nat)
    requires i < |ss|
    ensures var ids := IdsFor(ss[i], MarkAll(ss[..i], aa));
            && MarkAll(ss[..i + 1], aa) == Map(MarkAll(ss[..i], aa), MarkIf(ss[i]))
            && ApplicationIds(ss[..i + 1], aa) == ApplicationIds(ss[..i], aa) + ids
            && MarkIfListed(aa)(ss[i]) == (if ids != [] then ss[i].(status := AVAILABLE) else ss[i])
            && SourceIds(ss[..i + 1], aa) == SourceIds(ss[..i], aa) + (if ids != [] then [ss[i].id] else [])
  {
    assert ss[..i + 1][..i] == ss[..i];
    MarksKeepQualifying(aa, ss[..i], ss[i]);
    MapSnoc(Filter(ss[..i], SourceIsListed(aa)), ss[i], SourceId);
  }

  /** One turn of the outer loop, in place. */
  method MarkSource(i: nat, sources: array<Source>, applications: array<Application>, sourceIds: seq<int>,
                    applicationIds: seq<int>)
      returns (sourceIds': seq<int>, applicationIds': seq<int>)
    requires i < sources.Length
    modifies sources, applications
    ensures applications[..] == Map(old(applications[..]), MarkIf(old(sources[i])))
    ensures var s := old(sources[i]);
            var ids := IdsFor(s, old(applications[..]));
            && applicationIds' == applicationIds + ids
            && sourceIds' == sourceIds + (if ids != [] then [s.id] else [])
            && sources[i] == (if ids != [] then s.(status := AVAILABLE) else s)
    ensures forall k :: 0 <= k < sources.Length && k != i ==> sources[k] == old(sources[k])
  {
    ghost var before := sources[..];
    var shouldUpdate, ids := MarkApplications(sources[i], applications);
    assert sources[..] == before;
    applicationIds', sourceIds' := applicationIds + ids, sourceIds;
    if shouldUpdate {
      sources[i] := sources[i].(status := AVAILABLE);
      sourceIds' := sourceIds + [sources[i].id];
    }
  }

  /** The nested loops over sources and applications, in place. */
  method MarkSourcesAndApplications(sources: array<Source>, applications: array<Application>)
      returns (sourcesToUpdate: seq<int>, applicationsToUpdate: seq<int>)
    modifies sources, applications
    ensures sources[..] == Map(old(sources[..]), MarkIfListed(old(applications[..])))
    ensures applications[..] == MarkAll(old(sources[..]), old(applications[..]))
    ensures sourcesToUpdate == SourceIds(old(sources[..]), old(applications[..]))
    ensures applicationsToUpdate == ApplicationIds(old(sources[..]), old(applications[..]))
  {
    ghost var ss, aa := sources[..], applications[..];
    ghost var mark := MarkIfListed(aa);
    sourcesToUpdate, applicationsToUpdate := [], [];
    for i := 0 to sources.Length
      invariant applications[..] == MarkAll(ss[..i], aa)
      invariant applicationsToUpdate == ApplicationIds(ss[..i], aa)
      invariant forall k :: 0 <= k < i ==> sources[k] == mark(ss[k])
      invariant forall k :: i <= k < sources.Length ==> sources[k] == ss[k]
      invariant sourcesToUpdate == SourceIds(ss[..i], aa)
    {
      OuterTurn(ss, aa, i);
      sourcesToUpdate, applicationsToUpdate :=
          MarkSource(i, sources, applications, sourcesToUpdate, applicationsToUpdate);
    }
    assert ss[..sources.Length] == ss;
    MapIs(ss, sources[..], mark);
  }

  function MarkIfAuthListed(sourceIds: seq<int>, applicationIds: seq<int>): Authentication -> Authentication {
    (t: Authentication) => if IsListed(sourceIds, applicationIds, t) then t.(status := AVAILABLE) else t
  }

  lemma AuthenticationIdsSnoc(sourceIds: seq<int>, applicationIds: seq<int>, tt: seq<Authentication>, i: nat)
    requires i < |tt|
    ensures var ids := AuthenticationIds(sourceIds, applicationIds, tt[..i]);
            AuthenticationIds(sourceIds, applicationIds, tt[..i + 1])
            == if IsListed(sourceIds, applicationIds, tt[i]) then ids + [tt[i].id] else ids
  {
    assert tt[..i + 1][..i] == tt[..i];
    MapSnoc(Filter(tt[..i], AuthenticationIsListed(sourceIds, applicationIds)), tt[i], AuthenticationId);
  }

  /** One turn of the loop over the authentications. */
  method MarkAuthentication(i: nat, authentications: array<Authentication>, sourcesToUpdate: seq<int>,
                            applicationsToUpdate: seq<int>, ids: seq<int>)
      returns (ids': seq<int>)
    requires i < authentications.Length
    modifies authentications
    ensures forall k :: 0 <= k < authentications.Length && k != i ==> authentications[k] == old(authentications[k])
    ensures var t := old(authentications[i]);
            if IsListed(sourcesToUpdate, applicationsToUpdate, t)
            then authentications[i] == t.(status := AVAILABLE) && ids' == ids + [t.id]
            else authentications[i] == t && ids' == ids
  {
    var authentication := authentications[i];
    ids' := ids;
    if authentication.resourceType.SourceResource? && authentication.resourceId in sourcesToUpdate {
      authentications[i] := authentication.(status := AVAILABLE);
      ids' := ids + [authentication.id];
    } else if authentication.resourceType.ApplicationResource? && authentication.resourceId in applicationsToUpdate {
      authentications[i] := authentication.(status := AVAILABLE);
      ids' := ids + [authentication.id];
    }
  }

  /** The loop over the authentications, given the two lists. */
  method MarkAuthentications(authentications: array<Authentication>, sourcesToUpdate: seq<int>,
                             applicationsToUpdate: seq<int>)
      returns (authenticationsToUpdate: seq<int>)
    modifies authentications
    ensures authentications[..] == Map(old(authentications[..]),
            MarkIfAuthListed(sourcesToUpdate, applicationsToUpdate))
    ensures authenticationsToUpdate == AuthenticationIds(sourcesToUpdate, applicationsToUpdate,
            old(authentications[..]))
  {
    ghost var tt, mark := authentications[..], MarkIfAuthListed(sourcesToUpdate, applicationsToUpdate);
    authenticationsToUpdate := [];
    for i := 0 to authentications.Length
      invariant forall k :: 0 <= k < i ==> authentications[k] == mark(tt[k])
      invariant forall k :: i <= k < authentications.Length ==> authentications[k] == tt[k]
      invariant authenticationsToUpdate == AuthenticationIds(sourcesToUpdate, applicationsToUpdate, tt[..i])
    {
      AuthenticationIdsSnoc(sourcesToUpdate, applicationsToUpdate, tt, i);
      authenticationsToUpdate :=
        MarkAuthentication(i, authentications, sourcesToUpdate, applicationsToUpdate, authenticationsToUpdate);
    }
    assert tt[..authentications.Length] == tt;
    MapIs(tt, authentications[..], mark);
  }

  /** The in-place loops meet the declarative specification. */
  method SetCorrespondingResourcesAsAvailable(sources: array<Source>, applications: array<Application>,
                                              authentications: array<Authentication>)
      returns (sourcesToUpdate: seq<int>, applicationsToUpdate: seq<int>, authenticationsToUpdate: seq<int>)
    modifies sources, applications, authentications
    ensures sources[..] == Map(old(sources[..]), SourceAfter(old(applications[..])))
    ensures applications[..] == Map(old(applications[..]), ApplicationAfter(old(sources[..])))
    ensures authentications[..] == Map(old(authentications[..]),
            AuthenticationAfter(old(sources[..]), old(applications[..])))
    ensures sourcesToUpdate == SourceIds(old(sources[..]), old(applications[..]))
    ensures applicationsToUpdate == ApplicationIds(old(sources[..]), old(applications[..]))
    ensures authenticationsToUpdate == AuthenticationIds(sourcesToUpdate, applicationsToUpdate,
            old(authentications[..]))
  {
    ghost var ss, aa, tt := sources[..], applications[..], authentications[..];
    sourcesToUpdate, applicationsToUpdate := MarkSourcesAndApplications(sources, applications);
    authenticationsToUpdate := MarkAuthentications(authentications, sourcesToUpdate, applicationsToUpdate);
    LoopsMeetSpec(ss, aa, tt);
  }

  lemma LoopsMeetSpec(ss: seq<Source>, aa: seq<Application>, tt: seq<Authentication>)
    ensures Map(ss, MarkIfListed(aa)) == Map(ss, SourceAfter(aa))
    ensures MarkAll(ss, aa) == Map(aa, ApplicationAfter(ss))
    ensures Map(tt, MarkIfAuthListed(SourceIds(ss, aa), ApplicationIds(ss, aa))) == Map(tt, AuthenticationAfter(ss, aa))
  {
    forall i | 0 <= i < |ss| ensures MarkIfListed(aa)(ss[i]) == SourceAfter(aa)(ss[i]) {
      QualifiesIffFound(aa, ss[i]);
    }
    forall i | 0 <= i < |aa| ensures MarkAll(ss, aa)[i] == ApplicationAfter(ss)(aa[i]) {
      MarkAllIs(ss, aa, i);
    }
    forall i | 0 <= i < |tt|
      ensures MarkIfAuthListed(SourceIds(ss, aa), ApplicationIds(ss, aa))(tt[i]) == AuthenticationAfter(ss, aa)(tt[i])
    {
      AuthenticationListedIff(ss, aa, tt[i]);
    }
  }

  // ---- the UPDATE statements, and their agreement with the slices ----

  function SourceUpdate(ids: seq<int>): Source -> Source {
    (s: Source) => if s.id in ids then s.(status := AVAILABLE) else s
  }

  function ApplicationUpdate(ids: seq<int>): Application -> Application {
    (a: Application) => if a.id in ids then a.(status := AVAILABLE) else a
  }

  function AuthenticationUpdate(ids: seq<int>): Authentication -> Authentication {
    (t: Authentication) => if t.id in ids then t.(status := AVAILABLE) else t
  }

  ghost predicate SourceIdsDistinct(sources: seq<Source>) {
    forall s, t :: s in sources && t in sources && s.id == t.id ==> s == t
  }

  ghost predicate ApplicationIdsDistinct(applications: seq<Application>) {
    forall a, b :: a in applications && b in applications && a.id == b.id ==> a == b
  }

  ghost predicate AuthenticationIdsDistinct(authentications: seq<Authentication>) {
    forall t, u :: t in authentications && u in authentications && t.id == u.id ==> t == u
  }

  /** With distinct ids, `WHERE id IN …` changes a row exactly when its copy in memory was changed. */
  lemma UpdatesAgree(sources: seq<Source>, applications: seq<Application>, authentications: seq<Authentication>)
    requires SourceIdsDistinct(sources) && ApplicationIdsDistinct(applications)
             && AuthenticationIdsDistinct(authentications)
    ensures Map(sources, SourceUpdate(SourceIds(sources, applications))) == Map(sources, SourceAfter(applications))
    ensures Map(applications, ApplicationUpdate(ApplicationIds(sources, applications)))
            == Map(applications, ApplicationAfter(sources))
    ensures var ids := AuthenticationIds(SourceIds(sources, applications), ApplicationIds(sources, applications),
            authentications);
            Map(authentications, AuthenticationUpdate(ids))
                == Map(authentications, AuthenticationAfter(sources, applications))
  {
    forall i | 0 <= i < |sources|
      ensures SourceUpdate(SourceIds(sources, applications))(sources[i]) == SourceAfter(applications)(sources[i])
    {
      SourceIdsAre(sources, applications, sources[i].id);
    }
    forall i | 0 <= i < |applications|
      ensures ApplicationUpdate(ApplicationIds(sources, applications))(applications[i])
              == ApplicationAfter(sources)(applications[i])
    {
      ApplicationIdsAre(sources, applications, applications[i].id);
    }
    var sourceIds, applicationIds := SourceIds(sources, applications), ApplicationIds(sources, applications);
    forall i | 0 <= i < |authentications|
      ensures AuthenticationUpdate(AuthenticationIds(sourceIds, applicationIds, authentications))(authentications[i])
              == AuthenticationAfter(sources, applications)(authentications[i])
    {
      var listed := Filter(authentications, AuthenticationIsListed(sourceIds, applicationIds));
      InMap(listed, AuthenticationId, authentications[i].id);
      AuthenticationListedIff(sources, applications, authentications[i]);
    }
  }

  /** An application is set available exactly when it is for the image builder and on an Amazon source, or for
      the cloud meter and on a Google source; nothing else of it changes. */
  lemma ApplicationAvailableIff(sources: seq<Source>, a: Application)
    ensures ApplicationAfter(sources)(a) == a || ApplicationAfter(sources)(a) == a.(status := "available")
    ensures ApplicationAfter(sources)(a).status == "available"
            <==> || a.status == "available"
                 || exists s :: s in sources && s.id == a.sourceId
                      && ((s.sourceType.name == "amazon" && a.appType.name == "/insights/platform/image-builder")
                          || (s.sourceType.name == "google" && a.appType.name == "/insights/platform/cloud-meter"))
  {
  }

  /** A source is set available exactly when such an application is on it. */
  lemma SourceAvailableIff(applications: seq<Application>, s: Source)
    ensures SourceAfter(applications)(s) == s || SourceAfter(applications)(s) == s.(status := "available")
    ensures SourceAfter(applications)(s).status == "available"
            <==> || s.status == "available"
                 || exists a :: a in applications && a.sourceId == s.id
                      && ((s.sourceType.name == "amazon" && a.appType.name == "/insights/platform/image-builder")
                          || (s.sourceType.name == "google" && a.appType.name == "/insights/platform/cloud-meter"))
  {
  }

  /** An authentication is set available exactly when its source or application is one of those. */
  lemma AuthenticationAvailableIff(sources: seq<Source>, applications: seq<Application>, t: Authentication)
    requires forall s :: s in sources ==> s.status != "available"
    requires forall a :: a in applications ==> a.status != "available"
    ensures var after := AuthenticationAfter(sources, applications)(t);
            && (after == t || after == t.(status := "available"))
            && (after.status == "available"
                <==> || t.status == "available"
                     || (t.resourceType.SourceResource?
                         && exists s :: s in sources && s.id == t.resourceId
                                        && SourceAfter(applications)(s).status == "available")
                     || (t.resourceType.ApplicationResource?
                         && exists a :: a in applications && a.id == t.resourceId
                                        && ApplicationAfter(sources)(a).status == "available"))
  {
  }
}
