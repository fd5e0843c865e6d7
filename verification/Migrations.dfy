/** Schema migrations: one transaction each, in lexical order, over starts that may stop at any statement. */
module Migrations {
  import opened Domain
  import opened Text

  /** What survives a crash: the schema_migrations table and the bodies committed to the schema, in order. */
  datatype Disk = Disk(table: bool, recorded: set<string>, bodies: seq<string>)

  const BLANK := Disk(false, {}, [])

  datatype Ended = Ended(disk: Disk, completed: bool)

  function Committed(disk: Disk, name: string): Disk {
    disk.(recorded := disk.recorded + {name}, bodies := disk.bodies + [name])
  }

  // ----- sorting -----

  function Insert(name: string, names: seq<string>): seq<string> {
    if names == [] then [name]
    else if LexLe(name, names[0]) then [name] + names
    else [names[0]] + Insert(name, names[1..])
  }

  function Sort(names: seq<string>): seq<string> {
    if names == [] then [] else Insert(names[0], Sort(names[1..]))
  }

  predicate Ordered(names: seq<string>) {
    forall i, j :: 0 <= i < j < |names| ==> LexLe(names[i], names[j])
  }

  lemma {:induction false} InsertKeepsAll(name: string, names: seq<string>)
    ensures multiset(Insert(name, names)) == multiset(names) + multiset{name}
  {
    if names != [] {
      assert names == [names[0]] + names[1..];
      InsertKeepsAll(name, names[1..]);
    }
  }

  lemma OrderedCons(first: string, rest: seq<string>)
    requires Ordered(rest) && forall n :: n in rest ==> LexLe(first, n)
    ensures Ordered([first] + rest)
  {
  }

  lemma {:induction false} InsertOrdered(name: string, names: seq<string>)
    requires Ordered(names)
    ensures Ordered(Insert(name, names))
  {
    if names != [] {
      if LexLe(name, names[0]) {
        forall n | n in names ensures LexLe(name, n) {
          var j :| 0 <= j < |names| && names[j] == n;
          LexTransitiveFrom(name, names, j);
        }
        OrderedCons(name, names);
      } else {
        LexTotal(name, names[0]);
        InsertOrdered(name, names[1..]);
        InsertKeepsAll(name, names[1..]);
        var rest := Insert(name, names[1..]);
        forall n | n in rest ensures LexLe(names[0], n) {
          assert n in multiset(rest);
          assert n == name || n in multiset(names[1..]);
        }
        OrderedCons(names[0], rest);
      }
    }
  }

  lemma LexTransitiveFrom(name: string, names: seq<string>, j: nat)
    requires Ordered(names) && j < |names| && LexLe(name, names[0])
    ensures LexLe(name, names[j])
  {
    if j > 0 { LexTransitive(name, names[0], names[j]); }
  }

  /** Sorting puts the entries in lexical order and changes nothing else. */
  lemma {:induction false} SortMeaning(names: seq<string>)
    ensures Ordered(Sort(names)) && multiset(Sort(names)) == multiset(names)
  {
    if names != [] {
      SortMeaning(names[1..]);
      InsertOrdered(names[0], Sort(names[1..]));
      InsertKeepsAll(names[0], Sort(names[1..]));
      assert names == [names[0]] + names[1..];
    }
  }

  // ----- one start -----

  const TRANSACTION := 4

  /** The loop over sorted names when `budget` more statements succeed: one to look a name up, TRANSACTION to
      begin, run the body, record it and commit. */
  function Apply(names: seq<string>, disk: Disk, budget: nat): Ended {
    if names == [] then Ended(disk, true)
    else if budget < 1 then Ended(disk, false)
    else if names[0] in disk.recorded then Apply(names[1..], disk, budget - 1)
    else if budget < 1 + TRANSACTION then Ended(disk, false)
    else Apply(names[1..], Committed(disk, names[0]), budget - 1 - TRANSACTION)
  }

  /** A start whose first `budget` statements succeed and that stops there, if it gets that far. */
  datatype Start = Start(entries: seq<string>, budget: nat)

  function Started(disk: Disk, start: Start): Ended {
    if start.budget < 1 then Ended(disk, false)
    else Apply(Sort(start.entries), disk.(table := true), start.budget - 1)
  }

  class Database {
    var durable: Disk
    var tx: Option<Disk>
    var budget: nat

    constructor (disk: Disk, budget: nat)
      ensures durable == disk && tx == None && this.budget == budget
    {
      durable, tx, this.budget := disk, None, budget;
    }

    /** One statement: it succeeds, or the process stops and an open transaction is gone. */
    method Statement() returns (ok: bool)
      modifies this`tx, this`budget
      ensures ok == (old(budget) > 0)
      ensures if ok then tx == old(tx) && budget == old(budget) - 1 else tx == None && budget == 0
    {
      ok := budget > 0;
      if ok { budget := budget - 1; } else { tx := None; }
    }

    method MigrationApplied(name: string) returns (ok: bool, applied: bool)
      requires tx == None
      modifies this`tx, this`budget
      ensures ok == (old(budget) > 0) && tx == None && budget == (if ok then old(budget) - 1 else 0)
      ensures ok ==> applied == (name in durable.recorded)
    {
      ok := Statement();
      applied := name in durable.recorded;
    }

    /** All of the transaction or nothing. */
    method ApplyMigration(name: string) returns (ok: bool)
      requires tx == None
      modifies this
      ensures tx == None && ok == (old(budget) >= TRANSACTION)
      ensures if ok then durable == Committed(old(durable), name) && budget == old(budget) - TRANSACTION
              else durable == old(durable)
    {
      ok := Statement();
      if !ok { return; }
      tx := Some(durable);
      ok := Statement();
      if !ok { return; }
      tx := Some(tx.value.(bodies := tx.value.bodies + [name]));
      ok := Statement();
      if !ok { return; }
      tx := Some(tx.value.(recorded := tx.value.recorded + {name}));
      ok := Statement();
      if !ok { return; }
      durable, tx := tx.value, None;
    }

    method Migrate(entries: seq<string>) returns (completed: bool)
      requires tx == None
      modifies this
      ensures tx == None && Ended(durable, completed) == Started(old(durable), Start(entries, old(budget)))
    {
      completed := Statement();
      if !completed { return; }
      durable := durable.(table := true);
      var names := Sort(entries);
      ghost var whole := Apply(names, durable, budget);
      for i := 0 to |names|
        invariant tx == None && whole == Apply(names[i..], durable, budget)
      {
        assert names[i..][0] == names[i] && names[i..][1..] == names[i + 1..];
        var ok, applied := MigrationApplied(names[i]);
        if !ok { return false; }
        if !applied {
          ok := ApplyMigration(names[i]);
          if !ok { return false; }
        }
      }
      return true;
    }
  }

  // ----- what a start needs -----

  function Missing(names: seq<string>, recorded: set<string>): set<string> {
    set n | n in names && n !in recorded
  }

  /** One statement a name to look it up, and a transaction for every name that is not recorded: with that a start
      completes, and with less it does not. */
  lemma {:induction false} ApplyNeeds(names: seq<string>, disk: Disk, budget: nat)
    ensures Apply(names, disk, budget).completed
            <==> budget >= |names| + TRANSACTION * |Missing(names, disk.recorded)|
    decreases |names|
  {
    if names != [] {
      var name, rest := names[0], names[1..];
      assert names == [name] + rest;
      if name in disk.recorded {
        assert Missing(names, disk.recorded) == Missing(rest, disk.recorded);
        if budget >= 1 { ApplyNeeds(rest, disk, budget - 1); }
      } else {
        var later := Missing(rest, Committed(disk, name).recorded);
        assert Missing(names, disk.recorded) == later + {name} && name !in later;
        if budget >= 1 + TRANSACTION { ApplyNeeds(rest, Committed(disk, name), budget - 1 - TRANSACTION); }
      }
    }
  }

  /** A start completes exactly when one statement for the table, one for each migration of the release, and a
      transaction for each that is not recorded yet all succeed. */
  lemma EnoughCompletes(disk: Disk, start: Start)
    ensures Started(disk, start).completed
            <==> start.budget >= 1 + |start.entries| + TRANSACTION * |Missing(start.entries, disk.recorded)|
    ensures start.budget >= 1 ==> Started(disk, start).disk.table
    ensures start.budget == 0 ==> Started(disk, start).disk == disk
  {
    var sorted := Sort(start.entries);
    SortMeaning(start.entries);
    assert |multiset(sorted)| == |multiset(start.entries)|;
    assert Missing(sorted, disk.recorded) == Missing(start.entries, disk.recorded) by {
      forall n ensures n in sorted <==> n in start.entries {
        assert (n in sorted <==> n in multiset(sorted)) && (n in start.entries <==> n in multiset(start.entries));
      }
    }
    if start.budget >= 1 {
      ApplyNeeds(sorted, disk.(table := true), start.budget - 1);
      ApplyKeepsTable(sorted, disk.(table := true), start.budget - 1);
    }
  }

  lemma {:induction false} ApplyKeepsTable(names: seq<string>, disk: Disk, budget: nat)
    ensures Apply(names, disk, budget).disk.table == disk.table
    decreases |names|
  {
    if names != [] && budget >= 1 {
      if names[0] in disk.recorded {
        ApplyKeepsTable(names[1..], disk, budget - 1);
      } else if budget >= 1 + TRANSACTION {
        ApplyKeepsTable(names[1..], Committed(disk, names[0]), budget - 1 - TRANSACTION);
      }
    }
  }

  // ----- any number of starts -----

  function AfterStarts(disk: Disk, starts: seq<Start>): Disk {
    if starts == [] then disk
    else Started(AfterStarts(disk, starts[..|starts| - 1]), starts[|starts| - 1]).disk
  }

  predicate Distinct(names: seq<string>) {
    forall i, j :: 0 <= i < j < |names| ==> names[i] != names[j]
  }

  /** The table names exactly the committed bodies, and none was committed twice. */
  ghost predicate Faithful(disk: Disk) {
    disk.recorded == (set n <- disk.bodies) && Distinct(disk.bodies) && (disk.bodies != [] ==> disk.table)
  }

  /** Applying keeps the record faithful and only appends; completed, it has committed every name. */
  lemma {:induction false} ApplyKeeps(names: seq<string>, disk: Disk, budget: nat)
    requires Faithful(disk) && disk.table
    ensures var end := Apply(names, disk, budget);
            && Faithful(end.disk) && disk.bodies <= end.disk.bodies
                && (forall n <- end.disk.bodies :: n in disk.bodies || n in names)
            && (end.completed ==> forall n <- names :: n in end.disk.bodies)
    decreases |names|
  {
    if names != [] && budget >= 1 {
      assert names == [names[0]] + names[1..];
      if names[0] in disk.recorded {
        ApplyKeeps(names[1..], disk, budget - 1);
      } else if budget >= 1 + TRANSACTION {
        ApplyKeeps(names[1..], Committed(disk, names[0]), budget - 1 - TRANSACTION);
      }
    }
  }

  /** Over any starts, of any releases, stopped anywhere: no body is ever committed twice, nothing committed is
      forgotten, and a start that completes has every migration of its release applied. */
  lemma {:induction false} NeverTwice(starts: seq<Start>)
    ensures Faithful(AfterStarts(BLANK, starts))
    ensures starts != [] ==>
              var before, last := AfterStarts(BLANK, starts[..|starts| - 1]), starts[|starts| - 1];
              && before.bodies <= AfterStarts(BLANK, starts).bodies
              && (Started(before, last).completed ==>
                  forall n <- last.entries :: n in AfterStarts(BLANK, starts).bodies)
    decreases |starts|
  {
    if starts != [] {
      var before, last := AfterStarts(BLANK, starts[..|starts| - 1]), starts[|starts| - 1];
      NeverTwice(starts[..|starts| - 1]);
      if last.budget >= 1 {
        ApplyKeeps(Sort(last.entries), before.(table := true), last.budget - 1);
        SortMeaning(last.entries);
        assert forall n <- last.entries :: n in multiset(last.entries) && n in multiset(Sort(last.entries));
      }
    }
  }

  /** The committed bodies are the first k of the names. */
  ghost predicate Prefix(disk: Disk, names: seq<string>, k: nat) {
    k <= |names| && disk.bodies == names[..k] && disk.recorded == (set n <- names[..k])
  }

  /** From the first k names on, applying the names from i on to m commits up to some later j, and m when it
      completes. */
  lemma {:induction false} ApplyExtends(names: seq<string>, m: nat, i: nat, k: nat, disk: Disk, budget: nat)
      returns (j: nat)
    requires Distinct(names) && i <= m <= |names| && Prefix(disk, names, k) && i <= k
    ensures Prefix(Apply(names[i..m], disk, budget).disk, names, j) && k <= j
    ensures Apply(names[i..m], disk, budget).completed ==> m <= j
    decreases m - i
  {
    j := k;
    if i < m && budget >= 1 {
      assert names[i..m][0] == names[i] && names[i..m][1..] == names[i + 1..m];
      if i < k {
        assert names[i] == names[..k][i];
        j := ApplyExtends(names, m, i + 1, k, disk, budget - 1);
      } else {
        assert forall x :: 0 <= x < k ==> names[..k][x] == names[x] != names[i];
        assert names[..k + 1] == names[..k] + [names[i]];
        if budget >= 1 + TRANSACTION {
          j := ApplyExtends(names, m, i + 1, k + 1, Committed(disk, names[i]), budget - 1 - TRANSACTION);
        }
      }
    }
  }

  /** The release carries the first m migrations of the sequence. */
  ghost predicate ReleaseOf(start: Start, names: seq<string>) {
    exists m :: 0 <= m <= |names| && Sort(start.entries) == names[..m]
  }

  /** Releases that only ever add later names: the committed bodies are always a prefix of the lexical order, and
      a start that completes has committed at least its own. */
  lemma {:induction false} AlwaysAPrefix(names: seq<string>, starts: seq<Start>) returns (k: nat)
    requires Distinct(names) && forall s <- starts :: ReleaseOf(s, names)
    ensures Prefix(AfterStarts(BLANK, starts), names, k)
    ensures starts != [] && Started(AfterStarts(BLANK, starts[..|starts| - 1]), starts[|starts| - 1]).completed ==>
              |Sort(starts[|starts| - 1].entries)| <= k
    decreases |starts|
  {
    k := 0;
    if starts != [] {
      var before, last := AfterStarts(BLANK, starts[..|starts| - 1]), starts[|starts| - 1];
      k := AlwaysAPrefix(names, starts[..|starts| - 1]);
      if last.budget >= 1 {
        assert ReleaseOf(last, names);
        var m :| 0 <= m <= |names| && Sort(last.entries) == names[..m];
        assert names[0..m] == names[..m];
        k := ApplyExtends(names, m, 0, k, before.(table := true), last.budget - 1);
      }
    }
  }
}
