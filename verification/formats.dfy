/** The snapshot format migration path (src/storage.rs, `format_migration_path`), for any migration table. */
module Formats {
  import opened Common

  datatype FormatMigration = FormatMigration(from: nat, to: nat, name: string)

  type Table = seq<FormatMigration>

  const LEGACY_FORMAT: nat := 1
  const CURRENT_FORMAT: nat := 2
  const FORMAT_MIGRATIONS: Table := [FormatMigration(LEGACY_FORMAT, CURRENT_FORMAT, "snapshot_format_1_to_2")]

  /** The table entries that start at a version. */
  function Starting(table: Table, version: nat): Table {
    if table == [] then []
    else (if table[0].from == version then [table[0]] else []) + Starting(table[1..], version)
  }

  /** How many entries start at `version` or later. */
  function Ahead(table: Table, version: nat): nat {
    if table == [] then 0 else (if table[0].from >= version then 1 else 0) + Ahead(table[1..], version)
  }

  lemma {:induction false} AheadDrops(table: Table, version: nat, later: nat)
    requires version < later
    ensures Ahead(table, later) <= Ahead(table, version)
    ensures Starting(table, version) != [] ==> Ahead(table, later) < Ahead(table, version)
  {
    if table == [] {
    } else {
      AheadDrops(table[1..], version, later);
    }
  }

  lemma {:induction false} StartingMembers(table: Table, version: nat)
    ensures forall m :: m in Starting(table, version) <==> m in table && m.from == version
  {
    if table == [] {
    } else {
      StartingMembers(table[1..], version);
      assert table == [table[0]] + table[1..];
    }
  }

  /** From each version exactly one entry leads on, upwards. */
  predicate Onward(table: Table, version: nat) {
    |Starting(table, version)| == 1 && version < Starting(table, version)[0].to
  }

  function FormatPath(table: Table, version: nat, target: nat): (path: Option<Table>)
    decreases Ahead(table, version)
  {
    if version == target then Some([])
    else if !Onward(table, version) then None
    else
      var next := Starting(table, version)[0];
      AheadDrops(table, version, next.to);
      match FormatPath(table, next.to, target)
      case None => None
      case Some(rest) => Some([next] + rest)
  }

  function Continued(found: Table, rest: Option<Table>): Option<Table> {
    if rest.None? then None else Some(found + rest.value)
  }

  lemma ContinuedFurther(found: Table, m: FormatMigration, rest: Option<Table>)
    ensures Continued(found, Continued([m], rest)) == Continued(found + [m], rest)
    ensures Continued([], rest) == rest
  {
    if rest.Some? {
      assert found + ([m] + rest.value) == found + [m] + rest.value;
      assert [] + rest.value == rest.value;
    }
  }

  /** The search loop, and why it ends: every step leaves an entry behind. */
  method FindFormatPath(table: Table, from: nat, target: nat) returns (path: Option<Table>)
    ensures path == FormatPath(table, from, target)
  {
    var version := from;
    var found: Table := [];
    ContinuedFurther([], FormatMigration(0, 0, ""), FormatPath(table, from, target));
    while version != target
      invariant FormatPath(table, from, target) == Continued(found, FormatPath(table, version, target))
      decreases Ahead(table, version)
    {
      var starting := Starting(table, version);
      if |starting| != 1 || starting[0].to <= version {
        return None;
      }
      var next := starting[0];
      AheadDrops(table, version, next.to);
      ContinuedFurther(found, next, FormatPath(table, next.to, target));
      found := found + [next];
      version := next.to;
    }
    assert found + [] == found;
    return Some(found);
  }

  /** A chain of table entries from one version to another, each going up. */
  predicate Leads(table: Table, path: Table, from: nat, to: nat) {
    if path == [] then from == to
    else path[0] in table && path[0].from == from && from < path[0].to && Leads(table, path[1..], path[0].to, to)
  }

  lemma {:induction false} LeadsUp(table: Table, path: Table, from: nat, to: nat)
    requires Leads(table, path, from, to)
    ensures from <= to && (from == to <==> path == [])
    ensures forall i :: 0 <= i < |path| ==> from <= path[i].from < path[i].to <= to
    ensures forall i :: 0 <= i < |path| - 1 ==> path[i].to == path[i + 1].from
    ensures path != [] ==> path[0].from == from && path[|path| - 1].to == to
  {
    if path == [] {
    } else {
      LeadsUp(table, path[1..], path[0].to, to);
    }
  }

  /** A found path leads from the source to the target, and is the only one that does. */
  lemma {:induction false} PathIsUnique(table: Table, from: nat, target: nat)
    requires FormatPath(table, from, target).Some?
    ensures Leads(table, FormatPath(table, from, target).value, from, target)
    ensures forall q :: Leads(table, q, from, target) ==> q == FormatPath(table, from, target).value
    decreases Ahead(table, from)
  {
    var p := FormatPath(table, from, target).value;
    if from == target {
    } else {
      var next := Starting(table, from)[0];
      StartingMembers(table, from);
      assert next in Starting(table, from);
      AheadDrops(table, from, next.to);
      PathIsUnique(table, next.to, target);
      assert p[1..] == FormatPath(table, next.to, target).value;
    }
    forall q | Leads(table, q, from, target)
      ensures q == p
    {
      LeadsUp(table, q, from, target);
      if from != target {
        StartingMembers(table, from);
        var sole := Starting(table, from);
        assert q[0] in sole && sole == [sole[0]];
        assert Leads(table, q[1..], sole[0].to, target);
        assert q == [q[0]] + q[1..];
      }
    }
  }

  /**
   A path is refused exactly when the walk along sole entries stops short: some chain of
   them from the source ends at a version other than the target that has no single way on.
   */
  lemma {:induction false} RefusedPathStops(table: Table, from: nat, target: nat) returns (path: Table, stop: nat)
    requires FormatPath(table, from, target).None?
    ensures Leads(table, path, from, stop) && stop != target && !Onward(table, stop)
    ensures forall i :: 0 <= i < |path| ==> path[i].from != target && Starting(table, path[i].from) == [path[i]]
    decreases Ahead(table, from)
  {
    if !Onward(table, from) {
      path, stop := [], from;
    } else {
      var next := Starting(table, from)[0];
      AheadDrops(table, from, next.to);
      var rest;
      rest, stop := RefusedPathStops(table, next.to, target);
      StartingMembers(table, from);
      assert next in Starting(table, from);
      path := [next] + rest;
      assert path[1..] == rest;
    }
  }

  /** With the registered table only the current version and the one before it can be read. */
  lemma RegisteredPaths(version: nat)
    ensures FormatPath(FORMAT_MIGRATIONS, version, CURRENT_FORMAT) ==
      if version == CURRENT_FORMAT then Some([])
      else if version == LEGACY_FORMAT then Some(FORMAT_MIGRATIONS)
      else None
  {
    var table := FORMAT_MIGRATIONS;
    assert table[1..] == [];
    assert Starting(table, version) == if version == LEGACY_FORMAT then [table[0]] else [];
  }
}
