/** dao/seeding.go: `seedSourceTypes` and `seedApplicationTypes` bring a table of types in line with the seed
    file; the two loops differ only in the columns they copy. */
module Seeding {
  import opened Collections

  /** A type; `fields` stands for the columns copied from the seed. */
  datatype TypeRow<F> = TypeRow(name: string, fields: F)

  /** Rows by id, and the next id of the sequence. */
  datatype Table<F> = Table(rows: map<nat, TypeRow<F>>, next: nat)

  ghost predicate HasName<F>(rows: map<nat, TypeRow<F>>, name: string) {
    exists id :: id in rows && rows[id].name == name
  }

  /** The unique index on the name, and ids below the sequence. */
  ghost predicate WellFormed<F>(t: Table<F>) {
    && (forall id, other :: id in t.rows && other in t.rows && t.rows[id].name == t.rows[other].name ==> id == other)
    && (forall id :: id in t.rows ==> id < t.next)
  }

  /** The seed names that are not skipped. */
  predicate Wanted<F>(seeds: map<string, F>, skip: set<string>, name: string) {
    name in seeds && name !in skip
  }

  /** `after` is what seeding makes of `before`: the wanted names and no others, each with the seed's fields,
      under the id it had if it was there and a new one if not. */
  ghost predicate Reconciled<F(!new)>(before: Table<F>, after: Table<F>, seeds: map<string, F>, skip: set<string>) {
    && WellFormed(after) && before.next <= after.next
    && (forall name :: HasName(after.rows, name) <==> Wanted(seeds, skip, name))
    && (forall id :: id in after.rows ==>
        after.rows[id].name in seeds && after.rows[id].fields == seeds[after.rows[id].name])
    && (forall id :: id in before.rows && Wanted(seeds, skip, before.rows[id].name) ==>
                       id in after.rows && after.rows[id].name == before.rows[id].name)
    && (forall id :: id in after.rows && id in before.rows ==> after.rows[id].name == before.rows[id].name)
    && (forall id :: id in after.rows && id !in before.rows ==> id >= before.next)
  }

  /** The old rows keep id and name, and their fields until their name is seeded; new rows are for seeded
      names and have new ids. */
  ghost predicate Kept<F(!new)>(before: Table<F>, t: Table<F>, skip: set<string>, finished: set<string>) {
    && (forall id :: id in before.rows ==> id in t.rows && t.rows[id].name == before.rows[id].name)
    && (forall id :: id in before.rows && before.rows[id].name !in finished ==> t.rows[id] == before.rows[id])
    && (forall id :: id in t.rows && id !in before.rows ==>
          id >= before.next && t.rows[id].name in finished && t.rows[id].name !in skip)
  }

  /** Every seeded name has its row, with the seed's fields. */
  ghost predicate Filled<F(!new)>(t: Table<F>, seeds: map<string, F>, skip: set<string>, finished: set<string>) {
    && (forall name :: name in finished && name !in skip ==> name in seeds && HasName(t.rows, name))
    && (forall id :: id in t.rows && t.rows[id].name in finished && t.rows[id].name !in skip ==>
          t.rows[id].fields == seeds[t.rows[id].name])
  }

  /** The table with the names of `finished` seeded, before anything is deleted. */
  ghost predicate Seeded<F(!new)>(before: Table<F>, t: Table<F>, seeds: map<string, F>, skip: set<string>,
                           finished: set<string>) {
    WellFormed(t) && before.next <= t.next && Kept(before, t, skip, finished) && Filled(t, seeds, skip, finished)
  }

  /** The hash of the loaded records: the id of each name. */
  ghost predicate IsHash<F>(hash: map<string, nat>, rows: map<nat, TypeRow<F>>, finished: set<string>,
                            skip: set<string>) {
    && (forall name :: name in hash <==> HasName(rows, name) && !(name in finished && name !in skip))
    && (forall name :: name in hash ==> hash[name] in rows && rows[hash[name]].name == name)
  }

  /** The loop over the seeds so far. */
  ghost predicate Progress<F(!new)>(before: Table<F>, t: Table<F>, seeds: map<string, F>, skip: set<string>,
                                    finished: set<string>, hash: map<string, nat>) {
    match t
    case Table(rows, next) => Seeded(before, t, seeds, skip, finished) && IsHash(hash, rows, finished, skip)
  }

  class TypeTable<F(==, !new)> {
    var table: Table<F>

    /** `loadSourceTypeSeeds`; no hash when the query fails. */
    method LoadSeeds(fails: bool) returns (loaded: Option<map<string, nat>>)
      requires WellFormed(table)
      ensures loaded.None? <==> fails
      ensures loaded.Some? ==> IsHash(loaded.value, table.rows, {}, {})
    {
      if fails {
        return None;
      }
      var hash: map<string, nat> := map[];
      var todo := table.rows.Keys;
      while todo != {}
        invariant todo <= table.rows.Keys
        invariant forall id :: id in table.rows && id !in todo ==> table.rows[id].name in hash
        invariant forall name :: name in hash ==> hash[name] in table.rows && table.rows[hash[name]].name == name
        decreases |todo|
      {
        var id :| id in todo;
        hash := hash[table.rows[id].name := id];
        todo := todo - {id};
      }
      loaded := Some(hash);
    }

    /** Create the record, or save it under its id. */
    method Upsert(name: string, fields: F, found: Option<nat>)
      modifies this
      ensures table == Upserted(old(table), name, fields, found)
    {
      if found.None? {
        table := Table(table.rows[table.next := TypeRow(name, fields)], table.next + 1);
      } else {
        table := Table(table.rows[found.value := TypeRow(name, fields)], table.next);
      }
    }

    /** One seed: skipped, or created or saved and struck off the hash. */
    method ApplySeed(ghost before: Table<F>, seeds: map<string, F>, skip: set<string>, ghost finished: set<string>,
                     hash: map<string, nat>, name: string) returns (rest: map<string, nat>)
      requires name in seeds && name !in finished
      requires Progress(before, table, seeds, skip, finished, hash)
      modifies this
      ensures Progress(before, table, seeds, skip, finished + {name}, rest)
    {
      if name in skip {
        SkipKeeps(before, table, seeds, skip, finished, hash, name);
        rest := hash;
      } else {
        UpsertKeeps(before, table, seeds, skip, finished, hash, name);
        rest := hash - {name};
        Upsert(name, seeds[name], Found(hash, name));
      }
    }

    /** The loop over the seeds, in whatever order the map yields them; a statement that fails ends it. */
    method ApplySeeds(seeds: map<string, F>, skip: set<string>, loaded: map<string, nat>, fails: string -> bool)
        returns (ok: bool, hash: map<string, nat>, ghost finished: set<string>)
      requires WellFormed(table) && IsHash(loaded, table.rows, {}, {})
      modifies this
      ensures Seeded(old(table), table, seeds, skip, finished) && IsHash(hash, table.rows, finished, skip)
      ensures ok ==> finished == seeds.Keys
      ensures !ok <==> exists name :: Wanted(seeds, skip, name) && fails(name)
    {
      hash, finished := loaded, {};
      var todo := seeds.Keys;
      ghost var before := table;
      while todo != {}
        invariant todo <= seeds.Keys && finished == seeds.Keys - todo
        invariant Progress(before, table, seeds, skip, finished, hash)
        invariant forall name :: name in finished && name !in skip ==> !fails(name)
        decreases |todo|
      {
        var name :| name in todo;
        if name !in skip && fails(name) {
          assert Wanted(seeds, skip, name);
          return false, hash, finished;
        }
        hash := ApplySeed(before, seeds, skip, finished, hash, name);
        todo, finished := todo - {name}, finished + {name};
      }
      ok := true;
    }

    /** The records left in the hash are no longer in the seed file, or are skipped: they go, until a
        statement fails. */
    method DeleteLeft(hash: map<string, nat>, fails: string -> bool) returns (ok: bool)
      requires WellFormed(table)
      requires forall name :: name in hash ==> hash[name] in table.rows && table.rows[hash[name]].name == name
      modifies this
      ensures ok <==> forall name :: name in hash ==> !fails(name)
      ensures table == old(table).(rows := table.rows)
      ensures forall id :: id in table.rows ==> id in old(table).rows && table.rows[id] == old(table).rows[id]
      ensures forall id :: id in old(table).rows && old(table).rows[id].name !in hash ==> id in table.rows
      ensures ok ==> forall id :: id in table.rows ==> old(table).rows[id].name !in hash
    {
      var todo := hash.Keys;
      ghost var before := table;
      while todo != {}
        invariant todo <= hash.Keys && table == before.(rows := table.rows)
        invariant forall id :: id in table.rows <==>
              id in before.rows && !(before.rows[id].name in hash && before.rows[id].name !in todo)
        invariant forall id :: id in table.rows ==> table.rows[id] == before.rows[id]
        invariant forall name :: name in hash && name !in todo ==> !fails(name)
        decreases |todo|
      {
        var name :| name in todo;
        if fails(name) {
          return false;
        }
        todo := todo - {name};
        table := table.(rows := table.rows - {hash[name]});
      }
      ok := true;
    }

    /** `seedSourceTypes` and `seedApplicationTypes`.  A statement that fails stops the seeding: the load before
        any change; no row of a wanted name is lost then, and none at all before the deletions. */
    method Seed(seeds: map<string, F>, skip: set<string>, loadFails: bool, fails: string -> bool,
                deleteFails: string -> bool)
        returns (ok: bool)
      requires WellFormed(table)
      modifies this
      ensures WellFormed(table)
      ensures ok <==> && !loadFails
                      && (forall name :: Wanted(seeds, skip, name) ==> !fails(name))
                      && (forall name :: HasName(old(table).rows, name) && !Wanted(seeds, skip, name) ==>
                          !deleteFails(name))
      ensures ok ==> Reconciled(old(table), table, seeds, skip)
      ensures loadFails ==> table == old(table)
      ensures forall id :: id in old(table).rows && Wanted(seeds, skip, old(table).rows[id].name) ==>
                id in table.rows && table.rows[id].name == old(table).rows[id].name
      ensures (exists name :: Wanted(seeds, skip, name) && fails(name)) ==>
                forall id :: id in old(table).rows ==> id in table.rows
    {
      ghost var before := table;
      var loaded := LoadSeeds(loadFails);
      if loaded.None? {
        return false;
      }
      var hash;
      ghost var finished;
      SeededNothing(before, seeds, skip);
      ok, hash, finished := ApplySeeds(seeds, skip, loaded.value, fails);
      if ok {
        ghost var full := table;
        HashIsLeftover(before, full, seeds, skip, hash);
        ok := DeleteLeft(hash, deleteFails);
        if ok {
          DeletingReconciles(before, full, table, seeds, skip, hash);
        }
      }
    }
  }

  /** After all seeds, the hash holds the names that were there and are not wanted. */
  lemma HashIsLeftover<F(!new)>(before: Table<F>, full: Table<F>, seeds: map<string, F>, skip: set<string>,
                               hash: map<string, nat>)
    requires Seeded(before, full, seeds, skip, seeds.Keys) && IsHash(hash, full.rows, seeds.Keys, skip)
    ensures forall name :: name in hash <==> HasName(before.rows, name) && !Wanted(seeds, skip, name)
  {
    forall name | !Wanted(seeds, skip, name) ensures HasName(full.rows, name) <==> HasName(before.rows, name) {
      if HasName(before.rows, name) {
        var id :| id in before.rows && before.rows[id].name == name;
        assert id in full.rows && full.rows[id].name == name;
      }
    }
  }

  function Upserted<F>(t: Table<F>, name: string, fields: F, found: Option<nat>): Table<F> {
    if found.None? then Table(t.rows[t.next := TypeRow(name, fields)], t.next + 1)
    else Table(t.rows[found.value := TypeRow(name, fields)], t.next)
  }

  lemma SeededNothing<F(!new)>(t: Table<F>, seeds: map<string, F>, skip: set<string>)
    requires WellFormed(t)
    ensures Seeded(t, t, seeds, skip, {})
  {
  }

  lemma SkipKeeps<F(!new)>(before: Table<F>, t: Table<F>, seeds: map<string, F>, skip: set<string>,
                    finished: set<string>,
                           hash: map<string, nat>, name: string)
    requires Seeded(before, t, seeds, skip, finished) && IsHash(hash, t.rows, finished, skip)
    requires name in skip && name in seeds
    ensures Seeded(before, t, seeds, skip, finished + {name}) && IsHash(hash, t.rows, finished + {name}, skip)
  {
  }

  function Found(hash: map<string, nat>, name: string): Option<nat> {
    if name in hash then Some(hash[name]) else None
  }

  lemma UpsertNames<F(!new)>(t: Table<F>, name: string, fields: F, found: Option<nat>, other: string)
    requires WellFormed(t)
    requires if found.Some? then found.value in t.rows && t.rows[found.value].name == name else !HasName(t.rows, name)
    ensures WellFormed(Upserted(t, name, fields, found))
    ensures HasName(Upserted(t, name, fields, found).rows, other) <==> HasName(t.rows, other) || other == name
  {
    var t' := Upserted(t, name, fields, found);
    var id := if found.Some? then found.value else t.next;
    assert t'.rows[id] == TypeRow(name, fields);
    if HasName(t.rows, other) {
      var o :| o in t.rows && t.rows[o].name == other;
      assert o in t'.rows && t'.rows[o].name == other;
    }
    if other == name {
      assert id in t'.rows && t'.rows[id].name == name;
    }
    forall o | o in t.rows && found.None? ensures t.rows[o].name != name {
      assert found.None? ==> !HasName(t.rows, name);
    }
  }

  /** `found` is the row of that name, if there is one. */
  ghost predicate IsRowOf<F>(found: Option<nat>, t: Table<F>, name: string) {
    if found.Some? then found.value in t.rows && t.rows[found.value].name == name else !HasName(t.rows, name)
  }

  lemma UpsertKeepsOld<F(!new)>(before: Table<F>, t: Table<F>, skip: set<string>, finished: set<string>,
                                name: string, fields: F, found: Option<nat>)
    requires WellFormed(t) && before.next <= t.next && Kept(before, t, skip, finished)
    requires name !in skip && name !in finished && IsRowOf(found, t, name)
    ensures Kept(before, Upserted(t, name, fields, found), skip, finished + {name})
  {
  }

  lemma UpsertFills<F(!new)>(t: Table<F>, seeds: map<string, F>, skip: set<string>, finished: set<string>,
                             name: string, found: Option<nat>)
    requires WellFormed(t) && Filled(t, seeds, skip, finished)
    requires name !in skip && name in seeds && IsRowOf(found, t, name)
    ensures Filled(Upserted(t, name, seeds[name], found), seeds, skip, finished + {name})
  {
    var t' := Upserted(t, name, seeds[name], found);
    forall other | other in finished + {name} && other !in skip ensures other in seeds && HasName(t'.rows, other) {
      UpsertNames(t, name, seeds[name], found, other);
    }
    forall id | id in t'.rows && t'.rows[id].name == name ensures t'.rows[id].fields == seeds[name] {
    }
  }

  lemma UpsertKeepsSeeded<F(!new)>(before: Table<F>, t: Table<F>, seeds: map<string, F>, skip: set<string>,
                            finished: set<string>,
                                   name: string, found: Option<nat>)
    requires Seeded(before, t, seeds, skip, finished)
    requires name !in skip && name in seeds && name !in finished && IsRowOf(found, t, name)
    ensures Seeded(before, Upserted(t, name, seeds[name], found), seeds, skip, finished + {name})
  {
    UpsertNames(t, name, seeds[name], found, name);
    UpsertKeepsOld(before, t, skip, finished, name, seeds[name], found);
    UpsertFills(t, seeds, skip, finished, name, found);
  }

  lemma UpsertKeepsHash<F(!new)>(t: Table<F>, skip: set<string>, finished: set<string>, hash: map<string, nat>,
                          name: string, fields: F)
    requires WellFormed(t) && IsHash(hash, t.rows, finished, skip) && name !in skip && name !in finished
    ensures IsHash(hash - {name}, Upserted(t, name, fields, Found(hash, name)).rows, finished + {name}, skip)
  {
    forall other
      ensures HasName(Upserted(t, name, fields, Found(hash, name)).rows, other)
              <==> HasName(t.rows, other) || other == name
    {
      UpsertNames(t, name, fields, Found(hash, name), other);
    }
  }

  lemma UpsertKeeps<F(!new)>(before: Table<F>, t: Table<F>, seeds: map<string, F>, skip: set<string>,
                      finished: set<string>,
                             hash: map<string, nat>, name: string)
    requires Seeded(before, t, seeds, skip, finished) && IsHash(hash, t.rows, finished, skip)
    requires name !in skip && name in seeds && name !in finished
    ensures var t' := Upserted(t, name, seeds[name], Found(hash, name));
            Seeded(before, t', seeds, skip, finished + {name})
                && IsHash(hash - {name}, t'.rows, finished + {name}, skip)
  {
    assert name in hash <==> HasName(t.rows, name);
    UpsertKeepsSeeded(before, t, seeds, skip, finished, name, Found(hash, name));
    UpsertKeepsHash(t, skip, finished, hash, name, seeds[name]);
  }

  lemma DeletingReconciles<F(!new)>(before: Table<F>, full: Table<F>, after: Table<F>, seeds: map<string, F>,
                             skip: set<string>,
                                    hash: map<string, nat>)
    requires Seeded(before, full, seeds, skip, seeds.Keys) && IsHash(hash, full.rows, seeds.Keys, skip)
    requires after == full.(rows := after.rows)
    requires forall id :: id in after.rows <==> id in full.rows && full.rows[id].name !in hash
    requires forall id :: id in after.rows ==> after.rows[id] == full.rows[id]
    ensures Reconciled(before, after, seeds, skip)
  {
    forall id | id in full.rows ensures id in after.rows <==> Wanted(seeds, skip, full.rows[id].name) {
      assert HasName(full.rows, full.rows[id].name);
    }
    forall name ensures HasName(after.rows, name) <==> Wanted(seeds, skip, name) {
      if Wanted(seeds, skip, name) {
        assert HasName(full.rows, name);
        var id :| id in full.rows && full.rows[id].name == name;
        assert id in after.rows && after.rows[id].name == name;
      }
    }
  }

  // ---- what reconciling means ----

  /** A second run with the same seeds changes nothing. */
  lemma SecondRunChangesNothing<F(!new)>(t: Table<F>, once: Table<F>, twice: Table<F>, seeds: map<string, F>,
                                  skip: set<string>)
    requires WellFormed(t) && Reconciled(t, once, seeds, skip) && Reconciled(once, twice, seeds, skip)
    ensures twice.rows == once.rows
  {
    forall id | id in once.rows ensures id in twice.rows && twice.rows[id] == once.rows[id] {
      assert HasName(once.rows, once.rows[id].name);
    }
    forall id | id in twice.rows ensures id in once.rows {
      var name := twice.rows[id].name;
      assert HasName(twice.rows, name) && HasName(once.rows, name);
      var other :| other in once.rows && once.rows[other].name == name;
      assert HasName(once.rows, once.rows[other].name);
      assert other in twice.rows && twice.rows[other].name == name;
    }
  }

  /** The iteration order shows only in the ids of new rows: two runs agree on which names there are, on
      their fields, and on the ids of the names that were there before. */
  lemma OrderShowsOnlyInNewIds<F(!new)>(t: Table<F>, one: Table<F>, other: Table<F>, seeds: map<string, F>,
                                 skip: set<string>)
    requires WellFormed(t) && Reconciled(t, one, seeds, skip) && Reconciled(t, other, seeds, skip)
    ensures forall name :: HasName(one.rows, name) <==> HasName(other.rows, name)
    ensures forall i, j :: i in one.rows && j in other.rows && one.rows[i].name == other.rows[j].name ==>
              one.rows[i].fields == other.rows[j].fields && (HasName(t.rows, one.rows[i].name) ==> i == j)
  {
    forall i, j | i in one.rows && j in other.rows && one.rows[i].name == other.rows[j].name
      ensures one.rows[i].fields == other.rows[j].fields && (HasName(t.rows, one.rows[i].name) ==> i == j)
    {
      var name := one.rows[i].name;
      if HasName(t.rows, name) {
        var id :| id in t.rows && t.rows[id].name == name;
        assert HasName(one.rows, name);
        assert id in one.rows && id in other.rows;
      }
    }
  }

  /** The row of a skipped name does not survive, wherever it came from. */
  lemma SkippedRowsAreDeleted<F(!new)>(t: Table<F>, after: Table<F>, seeds: map<string, F>, skip: set<string>, id: nat)
    requires Reconciled(t, after, seeds, skip) && id in t.rows && t.rows[id].name in skip
    ensures id !in after.rows
  {
    if id in after.rows {
      assert HasName(after.rows, after.rows[id].name);
    }
  }
}
