/** dao/filtering.go: a list of filters is compiled to joins, a WHERE conjunction and ORDER BY terms. */
module FilterCompiler {
  import opened Collections
  import opened LikePatterns

  datatype Filter = Filter(subresource: string, name: string, operation: string, values: seq<string>)

  // ---- the part of SQL the compiler writes ----

  /** What a column name is prefixed with: the table of the statement, or the alias of a join. */
  datatype Prefix = Base | SourceType | ApplicationType | Applications

  datatype Column = Column(prefix: Prefix, name: string)

  datatype Cond =
    | Equals(column: Column, value: string)
    | In(column: Column, values: seq<string>)
    | Differs(column: Column, value: string)
    | Greater(column: Column, value: string)
    | GreaterOrEqual(column: Column, value: string)
    | Less(column: Column, value: string)
    | LessOrEqual(column: Column, value: string)
    | IsNull(column: Column)
    | IsNotNull(column: Column)
    | LikePattern(column: Column, pattern: string)
    | ILikePattern(column: Column, pattern: string)
    | LowerEquals(column: Column, value: string)
    | LowerDiffers(column: Column, value: string)

  datatype Term = Term(column: Column, descending: bool)

  /** What the compiler adds to a statement on `table`. */
  datatype Query = Query(table: string, joins: seq<Prefix>, wheres: seq<Cond>, distinct: bool, order: seq<Term>)

  /** A joined row: the value of each column, NULL as `None`, and how the type of a column compares. */
  datatype Row = Row(value: Column -> Option<string>, compare: (Column, string, string) -> int)

  /** Three-valued: `None` is unknown. */
  function Eval(c: Cond, row: Row): Option<bool> {
    match c
    case IsNull(column) => Some(row.value(column).None?)
    case IsNotNull(column) => Some(row.value(column).Some?)
    case _ => if row.value(c.column).None? then None else Some(Compare(c, row, row.value(c.column).value))
  }

  predicate Compare(c: Cond, row: Row, x: string) {
    match c
    case Equals(column, v) => row.compare(column, x, v) == 0
    case In(column, vs) => exists v | v in vs :: row.compare(column, x, v) == 0
    case Differs(column, v) => row.compare(column, x, v) != 0
    case Greater(column, v) => row.compare(column, x, v) > 0
    case GreaterOrEqual(column, v) => row.compare(column, x, v) >= 0
    case Less(column, v) => row.compare(column, x, v) < 0
    case LessOrEqual(column, v) => row.compare(column, x, v) <= 0
    case LikePattern(column, p) => Like(x, p)
    case ILikePattern(column, p) => ILike(x, p)
    case LowerEquals(column, v) => Lower(x) == v
    case LowerDiffers(column, v) => Lower(x) != v
    case _ => false
  }

  /** AND in three-valued logic: false wins over unknown. */
  function Conjunction(cs: seq<Cond>, row: Row): Option<bool> {
    if cs == [] then Some(true)
    else
      var front, last := Conjunction(cs[..|cs| - 1], row), Eval(cs[|cs| - 1], row);
      if front == Some(false) || last == Some(false) then Some(false)
      else if front.None? || last.None? then None
      else Some(true)
  }

  predicate Selects(q: Query, row: Row) {
    Conjunction(q.wheres, row) == Some(true)
  }

  // ---- column names ----

  type AllowList = map<string, set<string>>

  predicate WordChar(c: char) {
    'a' <= c <= 'z' || 'A' <= c <= 'Z' || '0' <= c <= '9' || c == '_'
  }

  /** `^[a-zA-Z_]\w*$` */
  predicate IsValidColumnName(name: string) {
    name != "" && !('0' <= name[0] <= '9') && forall c :: c in name ==> WordChar(c)
  }

  function PrefixOf(subresource: string): Option<Prefix> {
    if subresource == "source_type" then Some(SourceType)
    else if subresource == "application_type" then Some(ApplicationType)
    else if subresource == "application" then Some(Applications)
    else None
  }

  /** The table that a prefix denotes in a statement on `table`. */
  function TableOf(prefix: Prefix, table: string): string {
    match prefix
    case Base => table
    case SourceType => "source_types"
    case ApplicationType => "application_types"
    case Applications => "applications"
  }

  /** `isColumnAllowed`: an unknown subresource falls back to the statement's table. */
  predicate IsColumnAllowed(allowed: AllowList, table: string, subresource: string, column: string) {
    var prefix := PrefixOf(subresource);
    var lookup := if prefix.Some? then TableOf(prefix.value, table) else table;
    lookup in allowed && column in allowed[lookup]
  }

  /** The table a subresource can be joined to. */
  function JoinableFrom(prefix: Prefix): string {
    if prefix == ApplicationType then "applications" else "sources"
  }

  lemma PrefixIs(subresource: string)
    ensures subresource == "source_type" ==> PrefixOf(subresource) == Some(SourceType)
    ensures subresource == "application_type" ==> PrefixOf(subresource) == Some(ApplicationType)
    ensures subresource == "application" ==> PrefixOf(subresource) == Some(Applications)
    ensures subresource !in {"source_type", "application_type", "application"} ==> PrefixOf(subresource) == None
  {
    assert "source_type"[0] == 's' && "application_type"[0] == "application"[0] == 'a';
    assert |"application_type"| == 16 && |"application"| == 11;
  }

  /** Sources can be narrowed by their type and their applications, applications by their type, and no other
      table by anything; a column is then looked up in the table of that subresource. */
  lemma SubresourcesAre(table: string, subresource: string)
    ensures PrefixFor(table, "") == Some(Base)
    ensures subresource != "" ==>
              (PrefixFor(table, subresource).Some?
               <==> || (table == "sources" && subresource in {"source_type", "application"})
                    || (table == "applications" && subresource == "application_type"))
    ensures subresource != "" && PrefixFor(table, subresource).Some? ==>
              PrefixFor(table, subresource) == PrefixOf(subresource)
  {
    PrefixIs(subresource);
    assert "sources"[0] == 's' && "applications"[0] == 'a';
  }

  lemma ColumnsAreLookedUp(allowed: AllowList, table: string, column: string)
    requires {"source_types", "application_types", "applications", table} <= allowed.Keys
    ensures IsColumnAllowed(allowed, table, "source_type", column) <==> column in allowed["source_types"]
    ensures IsColumnAllowed(allowed, table, "application_type", column) <==> column in allowed["application_types"]
    ensures IsColumnAllowed(allowed, table, "application", column) <==> column in allowed["applications"]
    ensures IsColumnAllowed(allowed, table, "", column) <==> column in allowed[table]
  {
    PrefixIs("source_type");
    PrefixIs("application_type");
    PrefixIs("application");
    PrefixIs("");
    assert |"source_type"| == 11 && |"application_type"| == 16 && |"application"| == 11;
    assert "source_type"[0] == 's' && "application"[0] == 'a';
  }

  /** A column name is a letter or underscore, followed by letters, digits and underscores. */
  lemma ValidNameIff(name: string)
    ensures IsValidColumnName(name)
            <==> && |name| > 0
                 && (IsLetter(name[0]) || name[0] == '_')
                 && forall i :: 0 < i < |name| ==> IsLetter(name[i]) || IsDigit(name[i]) || name[i] == '_'
  {
    if IsValidColumnName(name) {
      forall i | 0 <= i < |name| ensures WordChar(name[i]) {
        assert name[i] in name;
      }
    }
  }

  predicate IsLetter(c: char) {
    65 <= c as int <= 90 || 97 <= c as int <= 122
  }

  predicate IsDigit(c: char) {
    48 <= c as int <= 57
  }

  // ---- one filter ----

  /** The prefix a filter names its columns with; none if its subresource cannot be used here. */
  function PrefixFor(table: string, subresource: string): Option<Prefix> {
    if subresource == "" then Some(Base)
    else
      var prefix := PrefixOf(subresource);
      if prefix.Some? && table == JoinableFrom(prefix.value) then prefix else None
  }

  function CondFor(operation: string, column: Column, values: seq<string>): Option<Cond>
    requires values != []
  {
    var v := values[0];
    if operation == "" || operation == "eq" then Some(if |values| > 1 then In(column, values) else Equals(column, v))
    else if operation == "not_eq" then Some(Differs(column, v))
    else if operation == "gt" then Some(Greater(column, v))
    else if operation == "gte" then Some(GreaterOrEqual(column, v))
    else if operation == "lt" then Some(Less(column, v))
    else if operation == "lte" then Some(LessOrEqual(column, v))
    else if operation == "nil" then Some(IsNull(column))
    else if operation == "not_nil" then Some(IsNotNull(column))
    else if operation == "contains" then Some(LikePattern(column, "%" + v + "%"))
    else if operation == "starts_with" then Some(LikePattern(column, v + "%"))
    else if operation == "ends_with" then Some(LikePattern(column, "%" + v))
    else if operation == "eq_i" then Some(LowerEquals(column, Lower(v)))
    else if operation == "not_eq_i" then Some(LowerDiffers(column, Lower(v)))
    else if operation == "contains_i" then Some(ILikePattern(column, "%" + v + "%"))
    else if operation == "starts_with_i" then Some(ILikePattern(column, v + "%"))
    else if operation == "ends_with_i" then Some(ILikePattern(column, "%" + v))
    else None
  }

  function Joined(q: Query, prefix: Prefix): Query {
    if prefix == Base || prefix in q.joins then q else q.(joins := q.joins + [prefix])
  }

  // ---- sorting ----

  predicate IsSpace(c: char) {
    c in " \t\n\r" || c == 11 as char || c == 12 as char || c == 0x85 as char || c == 0xA0 as char
  }

  /** `strings.Fields`: the runs of characters between white space. */
  function Fields(s: string): seq<string> {
    if s == "" then []
    else if IsSpace(s[|s| - 1]) then Fields(s[..|s| - 1])
    else
      var rest := Fields(s[..|s| - 1]);
      if |s| == 1 || IsSpace(s[|s| - 2]) || rest == [] then rest + [[s[|s| - 1]]]
      else rest[|rest| - 1 := rest[|rest| - 1] + [s[|s| - 1]]]
  }

  function UpperChar(c: char): char {
    if 'a' <= c <= 'z' then (c as int - 32) as char else c
  }

  function Upper(s: string): string {
    Map(s, UpperChar)
  }

  function TermFor(allowed: AllowList, table: string, subresource: string, prefix: Prefix,
                   value: string): Option<Term> {
    var parts := Fields(value);
    if |parts| == 0 || |parts| > 2 then None
    else if !IsValidColumnName(parts[0]) || !IsColumnAllowed(allowed, table, subresource, parts[0]) then None
    else if |parts| == 2 && Upper(parts[1]) != "ASC" && Upper(parts[1]) != "DESC" then None
    else Some(Term(Column(prefix, parts[0]), |parts| == 2 && Upper(parts[1]) == "DESC"))
  }

  lemma {:induction false} FieldsWord(before: string, word: string)
    requires word != "" && forall c :: c in word ==> !IsSpace(c)
    requires before == "" || IsSpace(before[|before| - 1])
    ensures Fields(before + word) == Fields(before) + [word]
  {
    var s, front := before + word, word[..|word| - 1];
    assert s[..|s| - 1] == before + front && s[|s| - 1] in word;
    if front == "" {
      assert before + front == before && [s[|s| - 1]] == word;
    } else {
      FieldsWord(before, front);
      assert s[|s| - 2] == front[|front| - 1] && front[|front| - 1] in word;
      assert front + [s[|s| - 1]] == word;
    }
  }

  lemma WordsHaveNoSpace(name: string)
    requires IsValidColumnName(name)
    ensures forall c :: c in name ==> !IsSpace(c)
  {
  }

  lemma TwoWords(name: string, direction: string)
    requires name != "" && direction != ""
    requires forall c :: c in name + direction ==> !IsSpace(c)
    ensures Fields(name + " " + direction) == [name, direction]
  {
    FieldsWord("", name);
    assert "" + name == name;
    assert forall c :: c in name ==> c in name + direction;
    assert forall c :: c in direction ==> c in name + direction;
    assert (name + " ")[..|name|] == name;
    FieldsWord(name + " ", direction);
  }

  /** A sort value is a listed column name, ascending by itself or with "asc", descending with "desc", in any
      case; any other second word is refused. */
  lemma SortValueMeans(allowed: AllowList, table: string, subresource: string, prefix: Prefix, name: string,
                       direction: string)
    requires IsValidColumnName(name) && IsColumnAllowed(allowed, table, subresource, name)
    requires direction != "" && forall c :: c in direction ==> !IsSpace(c)
    ensures TermFor(allowed, table, subresource, prefix, name) == Some(Term(Column(prefix, name), false))
    ensures TermFor(allowed, table, subresource, prefix, name + " " + direction)
            == if Upper(direction) == "ASC" then Some(Term(Column(prefix, name), false))
               else if Upper(direction) == "DESC" then Some(Term(Column(prefix, name), true))
               else None
  {
    WordsHaveNoSpace(name);
    FieldsWord("", name);
    assert "" + name == name;
    TwoWords(name, direction);
  }

  /** White space in the Latin-1 range. */
  lemma SpacesAre(c: char)
    ensures IsSpace(c) <==> c as int in {9, 10, 11, 12, 13, 32, 133, 160}
  {
  }

  lemma UpperIs(c: char)
    ensures UpperChar(c) as int == if 97 <= c as int <= 122 then c as int - 32 else c as int
  {
  }

  /** A sort value of no word or of more than two is refused. */
  lemma SortValueHasOneOrTwoWords(allowed: AllowList, table: string, subresource: string, prefix: Prefix, value: string)
    ensures TermFor(allowed, table, subresource, prefix, value).Some? ==> 1 <= |Fields(value)| <= 2
  {
  }

  lemma DirectionsAre()
    ensures Upper("asc") == Upper("ASC") == "ASC" && Upper("desc") == Upper("DESC") == Upper("Desc") == "DESC"
  {
  }

  predicate AllTerms(allowed: AllowList, table: string, subresource: string, prefix: Prefix, values: seq<string>) {
    forall v :: v in values ==> TermFor(allowed, table, subresource, prefix, v).Some?
  }

  function TermsFor(allowed: AllowList, table: string, subresource: string, prefix: Prefix,
                    values: seq<string>): seq<Term>
    requires AllTerms(allowed, table, subresource, prefix, values)
  {
    seq(|values|, i requires 0 <= i < |values| => TermFor(allowed, table, subresource, prefix, values[i]).value)
  }

  /** `applySortBy` */
  method ApplySortBy(allowed: AllowList, query: Query, filter: Filter, prefix: Prefix) returns (r: Option<Query>)
    ensures r.Some? <==> AllTerms(allowed, query.table, filter.subresource, prefix, filter.values)
    ensures r.Some? ==>
              r.value == query.(order := query.order
                  + TermsFor(allowed, query.table, filter.subresource, prefix, filter.values))
  {
    var clauses: seq<Term> := [];
    for i := 0 to |filter.values|
      invariant |clauses| == i
      invariant forall k :: 0 <= k < i ==>
                  TermFor(allowed, query.table, filter.subresource, prefix, filter.values[k]) == Some(clauses[k])
    {
      var clause := TermFor(allowed, query.table, filter.subresource, prefix, filter.values[i]);
      if clause.None? {
        assert filter.values[i] in filter.values;
        return None;
      }
      clauses := clauses + [clause.value];
    }
    r := Some(query.(order := query.order + clauses));
  }

  // ---- the whole list ----

  predicate NameAccepted(allowed: AllowList, table: string, f: Filter) {
    f.name == "" || (IsValidColumnName(f.name) && IsColumnAllowed(allowed, table, f.subresource, f.name))
  }

  /** What one filter needs to be accepted; the filters before it do not matter. */
  predicate Accepted(allowed: AllowList, table: string, f: Filter) {
    var prefix := PrefixFor(table, f.subresource);
    && prefix.Some?
    && (if f.operation == "sort_by" then AllTerms(allowed, table, f.subresource, prefix.value, f.values)
        else NameAccepted(allowed, table, f) && f.values != []
             && CondFor(f.operation, Column(prefix.value, f.name), f.values).Some?)
  }

  predicate IsSort(f: Filter) {
    f.operation == "sort_by"
  }

  /** An IN list can return a row more than once. */
  predicate IsListed(f: Filter) {
    (f.operation == "" || f.operation == "eq") && |f.values| > 1
  }

  function Added(allowed: AllowList, q: Query, f: Filter): Query
    requires Accepted(allowed, q.table, f)
  {
    var prefix := PrefixFor(q.table, f.subresource).value;
    var joined := Joined(q, prefix);
    if IsSort(f) then joined.(order := q.order + TermsFor(allowed, q.table, f.subresource, prefix, f.values))
    else joined.(wheres := q.wheres + [CondFor(f.operation, Column(prefix, f.name), f.values).value],
                 distinct := q.distinct || IsListed(f))
  }

  predicate AllAccepted(allowed: AllowList, table: string, filters: seq<Filter>) {
    forall f :: f in filters ==> Accepted(allowed, table, f)
  }

  function Compiled(allowed: AllowList, table: string, filters: seq<Filter>): (q: Query)
    requires AllAccepted(allowed, table, filters)
    ensures q.table == table
  {
    if filters == [] then Query(table, [], [], false, [])
    else Added(allowed, Compiled(allowed, table, filters[..|filters| - 1]), filters[|filters| - 1])
  }

  /** The subresource switch: refuse, or join once. */
  method JoinSubresource(query: Query, alreadyJoined: set<string>, subresource: string)
      returns (prefix: Option<Prefix>, q: Query, joined: set<string>)
    requires JoinedIs(alreadyJoined, query.joins)
    ensures prefix == PrefixFor(query.table, subresource)
    ensures prefix.Some? ==> q == Joined(query, prefix.value) && JoinedIs(joined, q.joins)
  {
    q, joined := query, alreadyJoined;
    if subresource == "" {
      prefix := Some(Base);
    } else {
      prefix := PrefixOf(subresource);
      if prefix.Some? {
        if query.table != JoinableFrom(prefix.value) {
          return None, q, joined;
        }
        if subresource !in alreadyJoined {
          q := query.(joins := query.joins + [prefix.value]);
          joined := alreadyJoined + {subresource};
        }
      }
    }
  }

  ghost predicate JoinedIs(joined: set<string>, joins: seq<Prefix>) {
    forall s :: PrefixOf(s).Some? ==> (s in joined <==> PrefixOf(s).value in joins)
  }

  /** `applyFilters` */
  method ApplyFilters(allowed: AllowList, table: string, filters: seq<Filter>) returns (r: Option<Query>)
    ensures r.Some? <==> AllAccepted(allowed, table, filters)
    ensures r.Some? ==> r.value == Compiled(allowed, table, filters)
  {
    var query, alreadyJoined: set<string> := Query(table, [], [], false, []), {};
    for i := 0 to |filters|
      invariant query.table == table && JoinedIs(alreadyJoined, query.joins)
      invariant AllAccepted(allowed, table, filters[..i])
      invariant query == Compiled(allowed, table, filters[..i])
    {
      OneMoreFilter(allowed, table, filters, i);
      var filter := filters[i];
      var added, joined := ApplyFilter(allowed, query, alreadyJoined, filter);
      if added.None? {
        assert filter in filters;
        return None;
      }
      query, alreadyJoined := added.value, joined;
    }
    assert filters[..|filters|] == filters;
    r := Some(query);
  }

  lemma OneMoreFilter(allowed: AllowList, table: string, filters: seq<Filter>, i: nat)
    requires i < |filters|
    ensures AllAccepted(allowed, table, filters[..i + 1]) <==>
          AllAccepted(allowed, table, filters[..i]) && Accepted(allowed, table, filters[i])
    ensures AllAccepted(allowed, table, filters[..i + 1]) ==>
              Compiled(allowed, table, filters[..i + 1])
                  == Added(allowed, Compiled(allowed, table, filters[..i]), filters[i])
  {
    assert filters[..i + 1] == filters[..i] + [filters[i]];
    assert filters[..i + 1][..i] == filters[..i];
  }

  method ApplyFilter(allowed: AllowList, query: Query, alreadyJoined: set<string>, filter: Filter)
      returns (r: Option<Query>, joined: set<string>)
    requires JoinedIs(alreadyJoined, query.joins)
    ensures r.Some? <==> Accepted(allowed, query.table, filter)
    ensures r.Some? ==> r.value == Added(allowed, query, filter) && JoinedIs(joined, r.value.joins)
  {
    var prefix: Option<Prefix>;
    var q: Query;
    prefix, q, joined := JoinSubresource(query, alreadyJoined, filter.subresource);
    if prefix.None? {
      return None, joined;
    }
    if filter.operation == "sort_by" {
      r := ApplySortBy(allowed, q, filter, prefix.value);
    } else {
      var cond := CondOf(allowed, q.table, filter, prefix.value);
      if cond.None? {
        return None, joined;
      }
      q := q.(wheres := q.wheres + [cond.value]);
      if IsListed(filter) {
        q := q.(distinct := true);
      }
      r := Some(q);
    }
  }

  function CondOf(allowed: AllowList, table: string, f: Filter, prefix: Prefix): Option<Cond> {
    if !NameAccepted(allowed, table, f) || f.values == [] then None
    else CondFor(f.operation, Column(prefix, f.name), f.values)
  }

  // ---- what the compiled statement means ----

  /** What a filter says about a row, in its own terms. */
  ghost predicate Holds(f: Filter, prefix: Prefix, row: Row)
    requires f.values != []
  {
    var column, v := Column(prefix, f.name), f.values[0];
    var x := row.value(column);
    if f.operation == "nil" then x.None?
    else if f.operation == "not_nil" then x.Some?
    else x.Some? && HoldsOf(f, column, row.compare, x.value, v)
  }

  ghost predicate HoldsOf(f: Filter, column: Column, compare: (Column, string, string) -> int, x: string, v: string) {
    match f.operation
    case "not_eq" => compare(column, x, v) != 0
    case "gt" => compare(column, x, v) > 0
    case "gte" => compare(column, x, v) >= 0
    case "lt" => compare(column, x, v) < 0
    case "lte" => compare(column, x, v) <= 0
    case "contains" => Contains(x, v)
    case "starts_with" => StartsWith(x, v)
    case "ends_with" => EndsWith(x, v)
    case "eq_i" => Lower(x) == Lower(v)
    case "not_eq_i" => Lower(x) != Lower(v)
    case "contains_i" => Contains(Lower(x), Lower(v))
    case "starts_with_i" => StartsWith(Lower(x), Lower(v))
    case "ends_with_i" => EndsWith(Lower(x), Lower(v))
    case _ => exists w :: w in f.values && compare(column, x, w) == 0
  }

  predicate IsPattern(operation: string) {
    operation in {"contains", "starts_with", "ends_with", "contains_i", "starts_with_i", "ends_with_i"}
  }

  /** On this row the condition of the filter says what the filter asks for. */
  ghost predicate Agrees(f: Filter, prefix: Prefix, row: Row)
    requires f.values != []
  {
    match CondFor(f.operation, Column(prefix, f.name), f.values)
    case None => false
    case Some(c) => Eval(c, row) == Some(true) <==> Holds(f, prefix, row)
  }

  // The six pattern operations one by one: what they compile to, against what they ask for.

  lemma ContainsAgrees(f: Filter, prefix: Prefix, row: Row)
    requires f.values != [] && f.operation == "contains"
    ensures Agrees(f, prefix, row) <==>
            match row.value(Column(prefix, f.name))
            case None => true
            case Some(x) => var v := f.values[0]; Like(x, "%" + v + "%") <==> Contains(x, v)
  {
  }

  lemma StartsWithAgrees(f: Filter, prefix: Prefix, row: Row)
    requires f.values != [] && f.operation == "starts_with"
    ensures Agrees(f, prefix, row) <==>
            match row.value(Column(prefix, f.name))
            case None => true
            case Some(x) => var v := f.values[0]; Like(x, v + "%") <==> StartsWith(x, v)
  {
  }

  lemma EndsWithAgrees(f: Filter, prefix: Prefix, row: Row)
    requires f.values != [] && f.operation == "ends_with"
    ensures Agrees(f, prefix, row) <==>
            match row.value(Column(prefix, f.name))
            case None => true
            case Some(x) => var v := f.values[0]; Like(x, "%" + v) <==> EndsWith(x, v)
  {
  }

  lemma ContainsFoldedAgrees(f: Filter, prefix: Prefix, row: Row)
    requires f.values != [] && f.operation == "contains_i"
    ensures Agrees(f, prefix, row) <==>
            match row.value(Column(prefix, f.name))
            case None => true
            case Some(x) => var v := f.values[0]; ILike(x, "%" + v + "%") <==> Contains(Lower(x), Lower(v))
  {
  }

  lemma StartsWithFoldedAgrees(f: Filter, prefix: Prefix, row: Row)
    requires f.values != [] && f.operation == "starts_with_i"
    ensures Agrees(f, prefix, row) <==>
            match row.value(Column(prefix, f.name))
            case None => true
            case Some(x) => var v := f.values[0]; ILike(x, v + "%") <==> StartsWith(Lower(x), Lower(v))
  {
  }

  lemma EndsWithFoldedAgrees(f: Filter, prefix: Prefix, row: Row)
    requires f.values != [] && f.operation == "ends_with_i"
    ensures Agrees(f, prefix, row) <==>
            match row.value(Column(prefix, f.name))
            case None => true
            case Some(x) => var v := f.values[0]; ILike(x, "%" + v) <==> EndsWith(Lower(x), Lower(v))
  {
  }

  lemma PatternAgrees(f: Filter, prefix: Prefix, row: Row)
    requires f.values != [] && IsPattern(f.operation) && Plain(f.values[0])
    ensures Agrees(f, prefix, row)
  {
    var v, x := f.values[0], row.value(Column(prefix, f.name));
    var s := if x.Some? then x.value else "";
    if f.operation == "contains" {
      ContainsAgrees(f, prefix, row);
      PlainContains(v, s);
    } else if f.operation == "starts_with" {
      StartsWithAgrees(f, prefix, row);
      PlainStartsWith(v, s);
    } else if f.operation == "ends_with" {
      EndsWithAgrees(f, prefix, row);
      PlainEndsWith(v, s);
    } else if f.operation == "contains_i" {
      ContainsFoldedAgrees(f, prefix, row);
      ContainsFolded(v, s);
    } else if f.operation == "starts_with_i" {
      StartsWithFoldedAgrees(f, prefix, row);
      StartsWithFolded(v, s);
    } else {
      EndsWithFoldedAgrees(f, prefix, row);
      EndsWithFolded(v, s);
    }
  }

  lemma ComparisonAgrees(f: Filter, prefix: Prefix, row: Row)
    requires f.values != [] && !IsPattern(f.operation) && CondFor(f.operation, Column(prefix, f.name), f.values).Some?
    ensures Agrees(f, prefix, row)
  {
    if |f.values| == 1 {
      assert f.values == [f.values[0]];
    }
  }

  lemma ConditionAgrees(f: Filter, prefix: Prefix, row: Row)
    requires f.values != [] && CondFor(f.operation, Column(prefix, f.name), f.values).Some?
    requires IsPattern(f.operation) ==> Plain(f.values[0])
    ensures Agrees(f, prefix, row)
  {
    if IsPattern(f.operation) {
      PatternAgrees(f, prefix, row);
    } else {
      ComparisonAgrees(f, prefix, row);
    }
  }

  function TextRow(s: string): Row {
    Row((c: Column) => Some(s), (c: Column, x: string, y: string) => 0)
  }

  /** A pattern operation whose value has a wildcard or an escape selects the wrong rows. */
  lemma WrongPattern(f: Filter, prefix: Prefix) returns (row: Row)
    requires f.values != [] && IsPattern(f.operation) && !Plain(f.values[0])
    ensures !Agrees(f, prefix, row)
  {
    var s: string;
    if f.operation == "contains" {
      s := WrongContains(f.values[0]);
      ContainsAgrees(f, prefix, TextRow(s));
    } else if f.operation == "starts_with" {
      s := WrongStartsWith(f.values[0]);
      StartsWithAgrees(f, prefix, TextRow(s));
    } else if f.operation == "ends_with" {
      s := WrongEndsWith(f.values[0]);
      EndsWithAgrees(f, prefix, TextRow(s));
    } else if f.operation == "contains_i" {
      s := WrongContainsFolded(f.values[0]);
      ContainsFoldedAgrees(f, prefix, TextRow(s));
    } else if f.operation == "starts_with_i" {
      s := WrongStartsWithFolded(f.values[0]);
      StartsWithFoldedAgrees(f, prefix, TextRow(s));
    } else {
      s := WrongEndsWithFolded(f.values[0]);
      EndsWithFoldedAgrees(f, prefix, TextRow(s));
    }
    row := TextRow(s);
  }

  /** A condition says on every row what its filter asks for, if and only if a pattern's value is free of
      wildcards and escapes. */
  lemma FilterMeansIff(f: Filter, prefix: Prefix)
    requires f.values != [] && CondFor(f.operation, Column(prefix, f.name), f.values).Some?
    ensures (forall row :: Agrees(f, prefix, row)) <==> (IsPattern(f.operation) ==> Plain(f.values[0]))
  {
    if IsPattern(f.operation) && !Plain(f.values[0]) {
      var row := WrongPattern(f, prefix);
    } else {
      forall row ensures Agrees(f, prefix, row) {
        ConditionAgrees(f, prefix, row);
      }
    }
  }

  lemma {:induction false} ConjunctionIff(cs: seq<Cond>, row: Row)
    ensures Conjunction(cs, row) == Some(true) <==> forall c :: c in cs ==> Eval(c, row) == Some(true)
  {
    if cs != [] {
      var front, last := cs[..|cs| - 1], cs[|cs| - 1];
      ConjunctionIff(front, row);
      assert cs == front + [last];
    }
  }

  /** AND is false when one condition is, and unknown when none is but one is unknown. */
  lemma {:induction false} ConjunctionIsFalseIff(cs: seq<Cond>, row: Row)
    ensures Conjunction(cs, row) == Some(false) <==> exists c :: c in cs && Eval(c, row) == Some(false)
  {
    if cs != [] {
      var front, last := cs[..|cs| - 1], cs[|cs| - 1];
      ConjunctionIsFalseIff(front, row);
      ConjunctionIff(front, row);
      assert cs == front + [last];
    }
  }

  function CondOfFilter(allowed: AllowList, table: string, f: Filter): Cond
    requires Accepted(allowed, table, f) && !IsSort(f)
  {
    CondFor(f.operation, Column(PrefixFor(table, f.subresource).value, f.name), f.values).value
  }

  /** The conditions of the statement are those of its filters: every filter's is there, … */
  lemma {:induction false} ConditionsInclude(allowed: AllowList, table: string, filters: seq<Filter>, f: Filter)
    requires AllAccepted(allowed, table, filters) && f in filters && !IsSort(f)
    ensures CondOfFilter(allowed, table, f) in Compiled(allowed, table, filters).wheres
  {
    var front, last := filters[..|filters| - 1], filters[|filters| - 1];
    assert Accepted(allowed, table, last) && filters == front + [last];
    if f != last {
      ConditionsInclude(allowed, table, front, f);
    }
  }

  /** … and every one comes from a filter. */
  lemma {:induction false} ConditionComesFrom(allowed: AllowList, table: string, filters: seq<Filter>, c: Cond)
      returns (f: Filter)
    requires AllAccepted(allowed, table, filters) && c in Compiled(allowed, table, filters).wheres
    ensures f in filters && !IsSort(f) && c == CondOfFilter(allowed, table, f)
  {
    var front, last := filters[..|filters| - 1], filters[|filters| - 1];
    assert Accepted(allowed, table, last);
    if c in Compiled(allowed, table, front).wheres {
      f := ConditionComesFrom(allowed, table, front, c);
    } else {
      f := last;
    }
  }

  predicate PatternsArePlain(filters: seq<Filter>) {
    forall f :: f in filters && !IsSort(f) && f.values != [] && IsPattern(f.operation) ==> Plain(f.values[0])
  }

  /** The statement selects a row exactly when every filter holds of it. */
  lemma CompilationPreservesMeaning(allowed: AllowList, table: string, filters: seq<Filter>, row: Row)
    requires AllAccepted(allowed, table, filters) && PatternsArePlain(filters)
    ensures Selects(Compiled(allowed, table, filters), row) <==>
            forall f :: f in filters && !IsSort(f) ==> Holds(f, PrefixFor(table, f.subresource).value, row)
  {
    var wheres := Compiled(allowed, table, filters).wheres;
    ConjunctionIff(wheres, row);
    forall f | f in filters && !IsSort(f)
      ensures CondOfFilter(allowed, table, f) in wheres
      ensures Eval(CondOfFilter(allowed, table, f), row) == Some(true) <==>
            Holds(f, PrefixFor(table, f.subresource).value, row)
    {
      ConditionsInclude(allowed, table, filters, f);
      ConditionAgrees(f, PrefixFor(table, f.subresource).value, row);
    }
    forall c | c in wheres ensures exists f :: f in filters && !IsSort(f) && c == CondOfFilter(allowed, table, f) {
      var f := ConditionComesFrom(allowed, table, filters, c);
    }
  }

  /** Whether a list is accepted, and which rows it selects, depends only on which filters it holds. */
  lemma OrderOfFiltersDoesNotMatter(allowed: AllowList, table: string, filters: seq<Filter>, others: seq<Filter>,
                                    row: Row)
    requires forall f :: f in filters <==> f in others
    ensures AllAccepted(allowed, table, filters) <==> AllAccepted(allowed, table, others)
    ensures AllAccepted(allowed, table, filters) ==>
              (Selects(Compiled(allowed, table, filters), row) <==> Selects(Compiled(allowed, table, others), row))
  {
    if AllAccepted(allowed, table, filters) {
      var one, two := Compiled(allowed, table, filters).wheres, Compiled(allowed, table, others).wheres;
      ConjunctionIff(one, row);
      ConjunctionIff(two, row);
      forall c | c in one ensures c in two {
        var f := ConditionComesFrom(allowed, table, filters, c);
        ConditionsInclude(allowed, table, others, f);
      }
      forall c | c in two ensures c in one {
        var f := ConditionComesFrom(allowed, table, others, c);
        ConditionsInclude(allowed, table, filters, f);
      }
    }
  }

  // ---- joins and columns ----

  ghost predicate Uses(table: string, filters: seq<Filter>, prefix: Prefix) {
    exists f :: f in filters && PrefixFor(table, f.subresource) == Some(prefix)
  }

  lemma OneMoreUse(table: string, front: seq<Filter>, last: Filter, prefix: Prefix)
    ensures Uses(table, front + [last], prefix) <==>
          Uses(table, front, prefix) || PrefixFor(table, last.subresource) == Some(prefix)
  {
    assert last in front + [last];
  }

  lemma JoinOnce(q: Query, prefix: Prefix)
    requires Distinct(q.joins) && Base !in q.joins
    ensures Distinct(Joined(q, prefix).joins) && Base !in Joined(q, prefix).joins
    ensures forall p :: p in Joined(q, prefix).joins <==> p in q.joins || (p == prefix && p != Base)
  {
  }

  /** A subresource is joined if and only if some filter or sort uses it, and then once. */
  lemma {:induction false} JoinsAre(allowed: AllowList, table: string, filters: seq<Filter>)
    requires AllAccepted(allowed, table, filters)
    ensures Distinct(Compiled(allowed, table, filters).joins)
    ensures forall prefix :: prefix in Compiled(allowed, table, filters).joins <==>
          prefix != Base && Uses(table, filters, prefix)
  {
    if filters != [] {
      var front, last := filters[..|filters| - 1], filters[|filters| - 1];
      JoinsAre(allowed, table, front);
      assert filters == front + [last] && Accepted(allowed, table, last);
      JoinOnce(Compiled(allowed, table, front), PrefixFor(table, last.subresource).value);
      forall prefix
        ensures Uses(table, filters, prefix)
                <==> Uses(table, front, prefix) || PrefixFor(table, last.subresource) == Some(prefix)
      {
        OneMoreUse(table, front, last, prefix);
      }
    }
  }

  /** The column exists in the allow-list of the table its prefix stands for. */
  ghost predicate Listed(allowed: AllowList, table: string, column: Column) {
    TableOf(column.prefix, table) in allowed && column.name in allowed[TableOf(column.prefix, table)]
  }

  lemma AcceptedColumn(allowed: AllowList, table: string, f: Filter)
    requires Accepted(allowed, table, f) && !IsSort(f)
    ensures var column := CondOfFilter(allowed, table, f).column;
            column.name == f.name && (f.name == "" || Listed(allowed, table, column)) && Uses(table, [f], column.prefix)
  {
    assert f in [f];
  }

  /** Every column of the WHERE clause is in the allow-list of its table, except that a filter without a
      name yields a condition without one; its prefix is the statement's table or a join that is there. */
  lemma ConditionsUseListedColumns(allowed: AllowList, table: string, filters: seq<Filter>, c: Cond)
    requires AllAccepted(allowed, table, filters) && c in Compiled(allowed, table, filters).wheres
    ensures if c.column.name == "" then exists f :: f in filters && !IsSort(f) && f.name == ""
            else Listed(allowed, table, c.column) && IsValidColumnName(c.column.name)
    ensures c.column.prefix == Base || c.column.prefix in Compiled(allowed, table, filters).joins
  {
    var f := ConditionComesFrom(allowed, table, filters, c);
    AcceptedColumn(allowed, table, f);
    JoinsAre(allowed, table, filters);
    assert Uses(table, filters, c.column.prefix);
  }

  /** All sort terms name listed columns. */
  lemma {:induction false} OrderUsesListedColumns(allowed: AllowList, table: string, filters: seq<Filter>)
    requires AllAccepted(allowed, table, filters)
    ensures forall t :: t in Compiled(allowed, table, filters).order ==>
              && Listed(allowed, table, t.column)
              && IsValidColumnName(t.column.name)
              && (t.column.prefix == Base || Uses(table, filters, t.column.prefix))
  {
    if filters != [] {
      var front, last := filters[..|filters| - 1], filters[|filters| - 1];
      OrderUsesListedColumns(allowed, table, front);
      assert filters == front + [last] && Accepted(allowed, table, last) && last in filters;
      var prefix := PrefixFor(table, last.subresource).value;
      assert Uses(table, filters, prefix);
      forall p | Uses(table, front, p) ensures Uses(table, filters, p) {
        var f :| f in front && PrefixFor(table, f.subresource) == Some(p);
        assert f in filters;
      }
      if IsSort(last) {
        SortTermsListed(allowed, table, last, prefix);
      }
    }
  }

  lemma SortTermsListed(allowed: AllowList, table: string, f: Filter, prefix: Prefix)
    requires PrefixFor(table, f.subresource) == Some(prefix)
             && AllTerms(allowed, table, f.subresource, prefix, f.values)
    ensures forall t :: t in TermsFor(allowed, table, f.subresource, prefix, f.values) ==>
              t.column.prefix == prefix && Listed(allowed, table, t.column) && IsValidColumnName(t.column.name)
  {
    forall i | 0 <= i < |f.values|
      ensures var t := TermsFor(allowed, table, f.subresource, prefix, f.values)[i];
              t.column.prefix == prefix && Listed(allowed, table, t.column) && IsValidColumnName(t.column.name)
    {
      assert TermFor(allowed, table, f.subresource, prefix, f.values[i]).Some?;
    }
  }

  function SortTermsOf(allowed: AllowList, table: string, f: Filter): seq<Term>
    requires Accepted(allowed, table, f)
  {
    if IsSort(f) then TermsFor(allowed, table, f.subresource, PrefixFor(table, f.subresource).value, f.values) else []
  }

  /** The sort terms a list asks for, from its first filter on. */
  function SortTerms(allowed: AllowList, table: string, filters: seq<Filter>): seq<Term>
    requires AllAccepted(allowed, table, filters)
  {
    if filters == [] then []
    else
      assert Accepted(allowed, table, filters[0]);
      SortTermsOf(allowed, table, filters[0]) + SortTerms(allowed, table, filters[1..])
  }

  lemma {:induction false} SortTermsSnoc(allowed: AllowList, table: string, filters: seq<Filter>, f: Filter)
    requires AllAccepted(allowed, table, filters + [f])
    ensures AllAccepted(allowed, table, filters) && Accepted(allowed, table, f)
    ensures SortTerms(allowed, table, filters + [f])
            == SortTerms(allowed, table, filters) + SortTermsOf(allowed, table, f)
  {
    var longer := filters + [f];
    assert f in longer && forall g :: g in filters ==> g in longer;
    if filters == [] {
      assert longer[0] == f && longer[1..] == [];
    } else {
      assert longer[0] == filters[0] && longer[1..] == filters[1..] + [f];
      SortTermsSnoc(allowed, table, filters[1..], f);
    }
  }

  /** ORDER BY lists the terms in the order in which they were asked for. */
  lemma {:induction false} OrderIs(allowed: AllowList, table: string, filters: seq<Filter>)
    requires AllAccepted(allowed, table, filters)
    ensures Compiled(allowed, table, filters).order == SortTerms(allowed, table, filters)
  {
    if filters != [] {
      var front, last := filters[..|filters| - 1], filters[|filters| - 1];
      OrderIs(allowed, table, front);
      assert filters == front + [last];
      SortTermsSnoc(allowed, table, front, last);
    }
  }

  /** DISTINCT is asked for exactly when some filter compares with a list. */
  lemma {:induction false} DistinctIff(allowed: AllowList, table: string, filters: seq<Filter>)
    requires AllAccepted(allowed, table, filters)
    ensures Compiled(allowed, table, filters).distinct
            <==> exists f :: f in filters && (f.operation == "" || f.operation == "eq") && |f.values| >= 2
  {
    if filters != [] {
      DistinctIff(allowed, table, filters[..|filters| - 1]);
      assert filters == filters[..|filters| - 1] + [filters[|filters| - 1]];
    }
  }

  /** The operations, and how many values each needs: one, whatever it does with it. */
  lemma OperationsAre(allowed: AllowList, table: string, f: Filter)
    ensures Accepted(allowed, table, f) && f.operation != "sort_by" ==> f.values != []
    ensures f.values != [] ==> forall column ::
              CondFor(f.operation, column, f.values).Some?
              <==> f.operation in {"", "eq", "not_eq", "gt", "gte", "lt", "lte", "nil", "not_nil", "contains",
                                   "starts_with", "ends_with", "eq_i", "not_eq_i", "contains_i", "starts_with_i",
                                   "ends_with_i"}
  {
  }

  /** A filter without a name is not checked, and compiles to a condition on a column without a name. */
  lemma NamelessFilterPasses(allowed: AllowList, table: string, value: string)
    ensures Accepted(allowed, table, Filter("", "", "eq", [value]))
    ensures Compiled(allowed, table, [Filter("", "", "eq", [value])]).wheres == [Equals(Column(Base, ""), value)]
  {
    var filters := [Filter("", "", "eq", [value])];
    assert filters[..0] == [] && CondFor("eq", Column(Base, ""), [value]) == Some(Equals(Column(Base, ""), value));
  }

  // ---- the program's own list ----

  const ALLOWED_FILTER_COLUMNS: AllowList := map[
    "sources" := {"id", "created_at", "updated_at", "paused_at", "name", "uid", "version", "imported",
      "source_ref", "app_creation_workflow", "source_type_id", "availability_status", "last_checked_at",
      "last_available_at"},
    "applications" := {"id", "created_at", "updated_at", "paused_at", "availability_status",
      "last_checked_at", "last_available_at", "availability_status_error", "extra", "source_id",
      "application_type_id"},
    "application_types" := {"id", "created_at", "updated_at", "name", "display_name",
      "dependent_applications", "supported_source_types", "supported_authentication_types",
      "resource_ownership"},
    "application_authentications" := {"id", "created_at", "updated_at", "paused_at", "application_id",
      "authentication_id"},
    "authentications" := {"id", "name", "authtype", "username", "availability_status", "last_checked_at",
      "last_available_at", "availability_status_error", "source_id", "resource_type", "resource_id"},
    "endpoints" := {"id", "created_at", "updated_at", "paused_at", "role", "port", "default", "scheme",
      "host", "path", "verify_ssl", "certificate_authority", "receptor_node", "availability_status",
      "last_checked_at", "last_available_at", "availability_status_error", "source_id"},
    "meta_data" := {"id", "created_at", "updated_at", "step", "name", "payload", "substitutions", "type",
      "application_type_id"},
    "rhc_connections" := {"id", "rhc_id", "extra", "availability_status", "last_checked_at",
      "last_available_at", "availability_status_error", "created_at", "updated_at"},
    "source_rhc_connections" := {"source_id", "rhc_connection_id"},
    "source_types" := {"id", "created_at", "updated_at", "category", "name", "product_name", "vendor",
      "icon_url", "schema"}
  ]

  lemma SecretsAreNotListed(table: string)
    requires table in ALLOWED_FILTER_COLUMNS
    ensures "password_hash" !in ALLOWED_FILTER_COLUMNS[table] && "password" !in ALLOWED_FILTER_COLUMNS[table]
  {
  }

  predicate IsSecret(name: string) {
    name == "password_hash" || name == "password"
  }

  /** Whatever the filters, no statement compares or sorts by a stored password. */
  lemma SecretsAreNotNamed(table: string, filters: seq<Filter>)
    requires AllAccepted(ALLOWED_FILTER_COLUMNS, table, filters)
    ensures forall c :: c in Compiled(ALLOWED_FILTER_COLUMNS, table, filters).wheres ==>
              c.column.name != "password" && c.column.name != "password_hash"
    ensures forall t :: t in Compiled(ALLOWED_FILTER_COLUMNS, table, filters).order ==>
              t.column.name != "password" && t.column.name != "password_hash"
  {
    var allowed := ALLOWED_FILTER_COLUMNS;
    forall c | c in Compiled(allowed, table, filters).wheres ensures !IsSecret(c.column.name) {
      ConditionsUseListedColumns(allowed, table, filters, c);
      ListedIsNoSecret(table, c.column);
    }
    OrderUsesListedColumns(allowed, table, filters);
    forall t | t in Compiled(allowed, table, filters).order ensures !IsSecret(t.column.name) {
      ListedIsNoSecret(table, t.column);
    }
  }

  lemma ListedIsNoSecret(table: string, column: Column)
    ensures Listed(ALLOWED_FILTER_COLUMNS, table, column) ==> !IsSecret(column.name)
  {
    if TableOf(column.prefix, table) in ALLOWED_FILTER_COLUMNS {
      SecretsAreNotListed(TableOf(column.prefix, table));
    }
  }
}
