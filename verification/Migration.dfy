/** The in-place upgrade of `duel_decisions` from one row per date to one row per pair
    and date (src/surge/db.py, `_migrate_sqlite`): every statement is a point at
    which the process may be killed, and a later run resumes. */
module Migration {
  import opened Prelude

  /** What the migration copies of a row. */
  type Content = string

  const PAIR := "soxl_soxs"

  /** The table under its own name: missing, of the old shape, or of the new one. */
  datatype Table = Absent | V1(byDate: map<string, Content>) | V2(byKey: map<(string, string), Content>)

  /** `stash` is the renamed old table `duel_decisions_v1`. */
  datatype Database = Database(main: Table, stash: Option<map<string, Content>>)

  datatype Statement = CreateNew | CopyKeepingNewer | CopyAll | DropStash | RenameOld

  /** Old rows under the pair they belonged to. */
  function Keyed(rows: map<string, Content>): map<(string, string), Content>
  {
    map d | d in rows :: (PAIR, d) := rows[d]
  }

  /** The statements a run will execute, decided by what it finds. */
  function Plan(db: Database): seq<Statement>
  {
    if db.stash.Some? then [CreateNew, CopyKeepingNewer, DropStash]
    else if db.main.V1? then [RenameOld, CreateNew, CopyAll, DropStash]
    else []
  }

  /** One committed statement. */
  function Exec(db: Database, s: Statement): Database
  {
    match s
    case CreateNew => if db.main.Absent? then db.(main := V2(map[])) else db
    case CopyKeepingNewer =>
      if db.main.V2? && db.stash.Some? then db.(main := V2(Keyed(db.stash.value) + db.main.byKey)) else db
    case CopyAll =>
      if db.main.V2? && db.stash.Some? then db.(main := V2(db.main.byKey + Keyed(db.stash.value))) else db
    case DropStash => db.(stash := None)
    case RenameOld => if db.main.V1? then Database(Absent, Some(db.main.byDate)) else db
  }

  /** The database after the first `k` statements of a run. */
  function After(db: Database, k: nat): Database
    requires k <= |Plan(db)|
  {
    if k == 0 then db else Exec(After(db, k - 1), Plan(db)[k - 1])
  }

  function Migrated(db: Database): Database { After(db, |Plan(db)|) }

  // ---- the code --------------------------------------------------------------------------

  class Connection {
    var main: Table
    var stash: Option<map<string, Content>>

    ghost function View(): Database
      reads this
    {
      Database(main, stash)
    }

    constructor (db: Database)
      ensures View() == db
    {
      main, stash := db.main, db.stash;
    }

    /** One run of the migration, killed after `budget` statements. */
    method MigrateSqlite(budget: nat) returns (completed: bool)
      modifies this
      ensures completed <==> budget >= |Plan(old(View()))|
      ensures View() == if completed then Migrated(old(View())) else After(old(View()), budget)
    {
      ghost var before := View();
      if stash.Some? {
        if budget == 0 { return false; }
        if main.Absent? { main := V2(map[]); }
        assert View() == After(before, 1);
        if budget == 1 { return false; }
        if main.V2? { main := V2(Keyed(stash.value) + main.byKey); }
        assert View() == After(before, 2);
        if budget == 2 { return false; }
        stash := None;
        assert View() == After(before, 3);
        return true;
      }
      if main.V1? {
        if budget == 0 { return false; }
        stash := Some(main.byDate);
        main := Absent;
        assert View() == After(before, 1);
        if budget == 1 { return false; }
        main := V2(map[]);
        assert View() == After(before, 2);
        if budget == 2 { return false; }
        main := V2(main.byKey + Keyed(stash.value));
        assert View() == After(before, 3);
        if budget == 3 { return false; }
        stash := None;
        assert View() == After(before, 4);
        return true;
      }
      completed := true;
    }
  }

  // ---- crashes, writes and resumption --------------------------------------------------------

  /** A run killed after `k` statements, or the application writing a row of the new shape. */
  datatype Event = Crash(k: nat) | Write(pair: string, date: string, content: Content)

  function Happen(db: Database, e: Event): Database
  {
    match e
    case Crash(k) => if k < |Plan(db)| then After(db, k) else Migrated(db)
    case Write(p, d, c) => if db.main.V2? then db.(main := V2(db.main.byKey[(p, d) := c])) else db
  }

  function HappenAll(db: Database, es: seq<Event>): Database
  {
    if es == [] then db else Happen(HappenAll(db, es[..|es| - 1]), es[|es| - 1])
  }

  /** The newest content the application wrote under a key, if a table was there to take it. */
  function Written(db: Database, es: seq<Event>): map<(string, string), Content>
  {
    if es == [] then map[]
    else
      var before, e := es[..|es| - 1], es[|es| - 1];
      if e.Write? && HappenAll(db, before).main.V2? then Written(db, before)[(e.pair, e.date) := e.content]
      else Written(db, before)
  }

  /** The database holds, under way or done, exactly the old rows, the rows that were already there, and what was
      written since, newest first. */
  ghost predicate Holds(db: Database, rows: map<string, Content>, written: map<(string, string), Content>)
  {
    && (db.main.V1? ==> db.main.byDate == rows && db.stash.None? && written == map[])
    && (db.main.Absent? ==> db.stash == Some(rows) && written == map[])
    && (db.main.V2? && db.stash.None? ==> db.main.byKey == Keyed(rows) + written)
    && (db.main.V2? && db.stash.Some? ==>
          db.stash.value == rows
          && (forall k :: k in written ==> k in db.main.byKey && db.main.byKey[k] == written[k])
          && (forall k :: k in db.main.byKey ==>
                if k in written then db.main.byKey[k] == written[k]
                else k in Keyed(rows) && db.main.byKey[k] == Keyed(rows)[k]))
  }

  lemma MergeKeepsNewer(a: map<(string, string), Content>, b: map<(string, string), Content>,
                        rows: map<string, Content>, written: map<(string, string), Content>)
    requires forall k :: k in written ==> k in b && b[k] == written[k]
    requires forall k :: k in b ==>
               if k in written then b[k] == written[k] else k in Keyed(rows) && b[k] == Keyed(rows)[k]
    requires a == Keyed(rows)
    ensures a + b == Keyed(rows) + written
  {
    var l, r := a + b, Keyed(rows) + written;
    assert forall k :: k in l <==> k in r;
    assert forall k :: k in l ==> l[k] == r[k];
  }

  /** Every prefix of a run keeps every row. */
  lemma RunHolds(db: Database, rows: map<string, Content>, written: map<(string, string), Content>, k: nat)
    requires Holds(db, rows, written) && k <= |Plan(db)|
    ensures Holds(After(db, k), rows, written)
  {
    if db.stash.Some? {
      ResumeHolds(db, rows, written, k);
    } else if db.main.V1? {
      UpgradeHolds(db, rows, written, k);
    }
  }

  lemma ResumeHolds(db: Database, rows: map<string, Content>, written: map<(string, string), Content>, k: nat)
    requires Holds(db, rows, written) && db.stash.Some? && k <= 3
    ensures Holds(After(db, k), rows, written)
    ensures k == 3 ==> After(db, k) == Database(V2(Keyed(rows) + written), None)
  {
    hide Keyed;
    var d1 := Exec(db, CreateNew);
    assert Plan(db)[0] == CreateNew && After(db, 1) == d1;
    if k >= 2 {
      MergeKeepsNewer(Keyed(db.stash.value), d1.main.byKey, rows, written);
      var d2 := Exec(d1, CopyKeepingNewer);
      assert Plan(db)[1] == CopyKeepingNewer && After(db, 2) == d2;
      assert d2 == Database(V2(Keyed(rows) + written), Some(rows));
      if k == 3 { assert After(db, 3) == Exec(d2, DropStash); }
    }
  }

  lemma UpgradeHolds(db: Database, rows: map<string, Content>, written: map<(string, string), Content>, k: nat)
    requires Holds(db, rows, written) && db.main.V1? && k <= 4
    ensures Holds(After(db, k), rows, written)
    ensures k == 4 ==> After(db, k) == Database(V2(Keyed(rows) + written), None)
  {
    hide Keyed;
    var d1 := Exec(db, RenameOld);
    var d2 := Exec(d1, CreateNew);
    var d3 := Exec(d2, CopyAll);
    assert map[] + Keyed(rows) == Keyed(rows) + written;
    assert d3 == Database(V2(Keyed(rows) + written), Some(rows));
    if k >= 1 { assert After(db, 1) == d1; }
    if k >= 2 { assert After(db, 2) == d2; }
    if k >= 3 { assert After(db, 3) == d3; }
    if k == 4 { assert After(db, 4) == Exec(d3, DropStash); }
  }

  lemma WriteHolds(db: Database, rows: map<string, Content>, written: map<(string, string), Content>, p: string,
                   d: string, c: Content)
    requires Holds(db, rows, written) && db.main.V2?
    ensures Holds(db.(main := V2(db.main.byKey[(p, d) := c])), rows, written[(p, d) := c])
  {
    if db.stash.None? {
      assert (Keyed(rows) + written)[(p, d) := c] == Keyed(rows) + written[(p, d) := c];
    }
  }

  /** Crashes at any statement and writes in between lose nothing. */
  lemma {:induction false} NothingLost(rows: map<string, Content>, es: seq<Event>)
    ensures var start := Database(V1(rows), None);
            Holds(HappenAll(start, es), rows, Written(start, es))
  {
    var start := Database(V1(rows), None);
    if es != [] {
      var before, e := es[..|es| - 1], es[|es| - 1];
      NothingLost(rows, before);
      var db := HappenAll(start, before);
      match e {
        case Crash(k) =>
          if k < |Plan(db)| {
            RunHolds(db, rows, Written(start, before), k);
          } else {
            RunHolds(db, rows, Written(start, before), |Plan(db)|);
          }
        case Write(p, d, c) =>
          if db.main.V2? { WriteHolds(db, rows, Written(start, before), p, d, c); }
      }
    }
  }

  /** What should stand under an old row's date: what was written since, else the old row. */
  function Newest(rows: map<string, Content>, written: map<(string, string), Content>, d: string): Content
    requires d in rows
  {
    if (PAIR, d) in written then written[(PAIR, d)] else rows[d]
  }

  /** After any number of crashes and writes, one completed run leaves every pre-upgrade row once, under its pair,
      unless something newer was written there; no stash remains; and further runs, crashed or not, change nothing. */
  lemma CrashSafe(rows: map<string, Content>, es: seq<Event>)
    ensures var start := Database(V1(rows), None);
            Migrated(HappenAll(start, es)) == Database(V2(Keyed(rows) + Written(start, es)), None)
    ensures var start := Database(V1(rows), None);
            var done := Migrated(HappenAll(start, es)).main.byKey;
            forall d :: d in rows ==>
              ("soxl_soxs", d) in done && done[("soxl_soxs", d)] == Newest(rows, Written(start, es), d)
    ensures var done := Migrated(HappenAll(Database(V1(rows), None), es));
            forall k :: Happen(done, Crash(k)) == done
  {
    var start := Database(V1(rows), None);
    CompletedRun(rows, es);
    hide HappenAll, Written, Migrated;
    var w := Written(start, es);
    assert forall d :: d in rows ==> (PAIR, d) in Keyed(rows) && Keyed(rows)[(PAIR, d)] == rows[d];
    NothingToDo(Database(V2(Keyed(rows) + w), None));
  }

  lemma CompletedRun(rows: map<string, Content>, es: seq<Event>)
    ensures var start := Database(V1(rows), None);
            Migrated(HappenAll(start, es)) == Database(V2(Keyed(rows) + Written(start, es)), None)
  {
    hide Keyed;
    var start := Database(V1(rows), None);
    NothingLost(rows, es);
    var db, w := HappenAll(start, es), Written(start, es);
    if db.stash.Some? {
      ResumeHolds(db, rows, w, 3);
    } else if db.main.V1? {
      UpgradeHolds(db, rows, w, 4);
    }
  }

  /** A finished database is left alone by any later run. */
  lemma NothingToDo(db: Database)
    requires db.main.V2? && db.stash.None?
    ensures Migrated(db) == db && forall k :: Happen(db, Crash(k)) == db
  {
    assert Plan(db) == [];
  }
}
