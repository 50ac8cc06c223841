/** graph/types.go and graph/helpers.go: one batched query per kind of subresource, grouped into a map,
    in place of one query per source. */
module RequestIndex {
  import opened Collections

  const DEFAULT_LIMIT: nat := 500

  datatype Kind = Applications | Endpoints | Authentications

  /** A subresource row; the two resource columns are only filled in for authentications. */
  datatype Row = Row(id: int, sourceId: int, resourceType: string, resourceId: int)

  /** What the loaded maps are keyed by: the source for applications and endpoints, the resource type
      for authentications. */
  datatype Key = BySource(sourceId: int) | ByType(resourceType: string)

  type Index = map<Key, seq<Row>>

  /** What one resolver wants: the rows of a source, or the authentications of one resource. */
  datatype Ask =
    | ForSource(sourceId: int)
    | ForResource(resourceType: string, resourceId: int)

  function KeyOf(kind: Kind): Row -> Key {
    match kind
    case Authentications => (r: Row) => ByType(r.resourceType)
    case _ => (r: Row) => BySource(r.sourceId)
  }

  function SourceIn(ids: seq<int>): Row -> bool {
    (r: Row) => r.sourceId in ids
  }

  /** The rows a dedicated, unlimited query would return for this question. */
  function Wanted(ask: Ask): Row -> bool {
    match ask
    case ForSource(s) => (r: Row) => r.sourceId == s
    case ForResource(t, id) => (r: Row) => r.resourceType == t && r.resourceId == id
  }

  function SeparateQuery(table: seq<Row>, ask: Ask): seq<Row> {
    Filter(table, Wanted(ask))
  }

  /** The rows matching the batched filter, before the limit is applied. */
  function Matching(table: seq<Row>, ids: seq<int>): seq<Row> {
    Filter(table, SourceIn(ids))
  }

  /** The single query of the loader: filtered on the source ids and cut at the limit. */
  function BatchQuery(table: seq<Row>, ids: seq<int>): seq<Row> {
    Take(Matching(table, ids), DEFAULT_LIMIT)
  }

  function LoadedIndex(kind: Kind, table: seq<Row>, ids: seq<int>): Index {
    GroupBy(BatchQuery(table, ids), KeyOf(kind))
  }

  function OfResource(id: int): Row -> bool {
    (r: Row) => id == r.resourceId
  }

  /** What a resolver reads from a loaded map. */
  function Lookup(index: Index, ask: Ask): seq<Row> {
    match ask
    case ForSource(s) => Bucket(index, BySource(s))
    case ForResource(t, id) => Filter(Bucket(index, ByType(t)), OfResource(id))
  }

  /** A question is put to the map of a kind whose key it can use. */
  predicate Fits(kind: Kind, ask: Ask) {
    kind.Authentications? <==> ask.ForResource?
  }

  /** `authenticationsFromCtx`: the loop over one bucket. */
  method AuthenticationsFor(index: Index, resourceType: string, id: int) returns (out: seq<Row>)
    ensures out == Lookup(index, ForResource(resourceType, id))
  {
    out := [];
    var rows := Bucket(index, ByType(resourceType));
    for i := 0 to |rows|
      invariant out == Filter(rows[..i], OfResource(id))
    {
      assert rows[..i + 1][..i] == rows[..i];
      if id == rows[i].resourceId {
        out := out + [rows[i]];
      }
    }
    assert rows[..|rows|] == rows;
  }

  /** The loader body once both mutexes are held: query, then group. */
  method LoadIndex(kind: Kind, table: seq<Row>, ids: seq<int>) returns (index: Index)
    ensures index == LoadedIndex(kind, table, ids)
    ensures forall ask :: Fits(kind, ask) ==> Lookup(index, ask) == SeparateQuery(BatchQuery(table, ids), ask)
  {
    var rows := BatchQuery(table, ids);
    index := BuildGroups(rows, KeyOf(kind));
    forall ask | Fits(kind, ask) ensures Lookup(index, ask) == SeparateQuery(rows, ask) {
      LookupIsFilter(kind, rows, ask);
    }
  }

  /** Grouping and looking up is filtering: one stage for the maps by source, two for authentications. */
  lemma LookupIsFilter(kind: Kind, rows: seq<Row>, ask: Ask)
    requires Fits(kind, ask)
    ensures Lookup(GroupBy(rows, KeyOf(kind)), ask) == SeparateQuery(rows, ask)
  {
    match ask
    case ForSource(s) =>
      GroupByIsFilter(rows, KeyOf(kind), BySource(s));
      FilterCongruent(rows, HasKey(KeyOf(kind), BySource(s)), Wanted(ask));
    case ForResource(t, id) =>
      GroupByIsFilter(rows, KeyOf(kind), ByType(t));
      FilterTwice(rows, HasKey(KeyOf(kind), ByType(t)), OfResource(id), Wanted(ask));
  }

  /** Every row the question is about carries a listed source, and none of them was cut off. */
  ghost predicate Covers(table: seq<Row>, ids: seq<int>, ask: Ask) {
    && (forall r :: r in table && Wanted(ask)(r) ==> r.sourceId in ids)
    && (forall r :: r in Matching(table, ids)[|BatchQuery(table, ids)|..] ==> !Wanted(ask)(r))
  }

  /** What the batch answers, and what the limit cut off. */
  lemma BatchAndRest(kind: Kind, table: seq<Row>, ids: seq<int>, ask: Ask)
    requires Fits(kind, ask)
    ensures var cut := Matching(table, ids)[|BatchQuery(table, ids)|..];
            Filter(Matching(table, ids), Wanted(ask))
                == Lookup(LoadedIndex(kind, table, ids), ask) + Filter(cut, Wanted(ask))
  {
    var matching, kept := Matching(table, ids), BatchQuery(table, ids);
    LookupIsFilter(kind, kept, ask);
    assert matching == kept + matching[|kept|..];
    FilterAppend(kept, matching[|kept|..], Wanted(ask));
  }

  /** Reading the batched map answers a question exactly as its own query would, if and only if the
      limit cut off no matching row the question is about and no such row belongs to an unlisted source. */
  lemma BatchAnswersIff(kind: Kind, table: seq<Row>, ids: seq<int>, ask: Ask)
    requires Fits(kind, ask)
    ensures Lookup(LoadedIndex(kind, table, ids), ask) == SeparateQuery(table, ask) <==> Covers(table, ids, ask)
  {
    var want, cut := Wanted(ask), Matching(table, ids)[|BatchQuery(table, ids)|..];
    BatchAndRest(kind, table, ids, ask);
    FilterSplit(table, SourceIn(ids), want);
    EmptyIff(cut, want);
    if forall r :: r in table && want(r) ==> r.sourceId in ids {
      FilterImplied(table, SourceIn(ids), want);
    }
  }

  lemma EmptyIff<T>(xs: seq<T>, p: T -> bool)
    ensures Filter(xs, p) == [] <==> forall x :: x in xs ==> !p(x)
  {
    if Filter(xs, p) != [] {
      assert Filter(xs, p)[0] in Filter(xs, p);
    }
  }

  /** Filtering first by `p` loses exactly the rows that fail `p`. */
  lemma {:induction false} FilterSplit<T>(xs: seq<T>, p: T -> bool, q: T -> bool)
    ensures |Filter(Filter(xs, p), q)| <= |Filter(xs, q)|
    ensures |Filter(Filter(xs, p), q)| == |Filter(xs, q)| ==> forall x :: x in xs && q(x) ==> p(x)
  {
    if xs != [] {
      FilterSplit(xs[..|xs| - 1], p, q);
    }
  }

  /** One batched query stands in for N separate ones, for every listed source at once, if and only if
      the batch fits the limit. */
  lemma BatchReplacesSeparateQueries(kind: Kind, table: seq<Row>, ids: seq<int>)
    requires !kind.Authentications?
    ensures (forall s :: s in ids ==>
                Lookup(LoadedIndex(kind, table, ids), ForSource(s)) == SeparateQuery(table, ForSource(s)))
            <==> |Matching(table, ids)| <= 500
  {
    forall s
      ensures Lookup(LoadedIndex(kind, table, ids), ForSource(s)) == SeparateQuery(table, ForSource(s))
              <==> Covers(table, ids, ForSource(s))
    {
      BatchAnswersIff(kind, table, ids, ForSource(s));
    }
    if |Matching(table, ids)| > DEFAULT_LIMIT {
      var lost := Matching(table, ids)[DEFAULT_LIMIT];
      assert lost in Matching(table, ids);
      assert lost == Matching(table, ids)[|BatchQuery(table, ids)|..][0];
      assert lost.sourceId in ids && Wanted(ForSource(lost.sourceId))(lost);
    }
  }

  /** The two-stage authentication lookup is one filter on type and id over the whole table, as long as
      the batch fits the limit and every authentication of the resource carries a listed source. */
  lemma AuthenticationsAreComplete(table: seq<Row>, ids: seq<int>, resourceType: string, id: int)
    requires |Matching(table, ids)| <= DEFAULT_LIMIT
    ensures Lookup(LoadedIndex(Authentications, table, ids), ForResource(resourceType, id))
              == SeparateQuery(table, ForResource(resourceType, id))
            <==> forall r :: r in table && r.resourceType == resourceType && r.resourceId == id ==> r.sourceId in ids
  {
    BatchAnswersIff(Authentications, table, ids, ForResource(resourceType, id));
  }
}
