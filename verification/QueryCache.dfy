/** The insert and update query caches of one generated table
    (internal/sqlboiler/crawl_mode_changes.go, representative of all tables). */
module QueryCache {
  import opened Model
  import opened CacheKey

  /** A prepared statement: the columns it writes and those it returns. */
  datatype Statement = Statement(write: seq<string>, returning: seq<string>)

  /** What the sqlboiler library derives from a request, over which this table's methods are generic:
      the insert columns, the columns to update, and whether the record type has a field for a column. */
  datatype Library = Library(
    insertSet: (Columns, seq<string>) -> (seq<string>, seq<string>),
    updateSet: Columns -> seq<string>,
    bound: string -> bool,
    isWhitelist: Columns -> bool)

  predicate Bound(lib: Library, cols: seq<string>) {
    forall i :: 0 <= i < |cols| ==> lib.bound(cols[i])
  }

  /** The statement an insert builds afresh; None when a column cannot be bound. */
  function BuildInsert(lib: Library, columns: Columns, nzDefaults: seq<string>): Option<Statement> {
    var (wl, returning) := lib.insertSet(columns, nzDefaults);
    if Bound(lib, wl) && Bound(lib, returning) then Some(Statement(wl, returning)) else None
  }

  function Without(cols: seq<string>, name: string): seq<string> {
    if cols == [] then [] else (if cols[0] == name then [] else [cols[0]]) + Without(cols[1..], name)
  }

  /** The statement an update builds afresh; None for an empty column list and for unbound columns. */
  function BuildUpdate(lib: Library, primaryKey: seq<string>, columns: Columns): Option<Statement> {
    var chosen := lib.updateSet(columns);
    var wl := if lib.isWhitelist(columns) then chosen else Without(chosen, "created_at");
    if wl != [] && Bound(lib, wl + primaryKey) then Some(Statement(wl, [])) else None
  }

  lemma {:induction false} WithoutLeaves(cols: seq<string>, name: string)
    ensures name !in Without(cols, name)
    ensures forall c :: c in cols && c != name ==> c in Without(cols, name)
    ensures forall c :: c in Without(cols, name) ==> c in cols
  {
    if cols != [] {
      WithoutLeaves(cols[1..], name);
      assert forall c :: c in cols <==> c == cols[0] || c in cols[1..];
    }
  }

  /** An insert writes and returns what the library chooses, and is refused exactly when a column cannot be bound. */
  lemma InsertWrites(lib: Library, columns: Columns, nzDefaults: seq<string>)
    ensures var built, chosen := BuildInsert(lib, columns, nzDefaults), lib.insertSet(columns, nzDefaults);
            && (built.Some? ==> built.value == Statement(chosen.0, chosen.1))
            && (built.Some? <==> forall c :: c in chosen.0 || c in chosen.1 ==> lib.bound(c))
  {
    BoundMeans(lib, lib.insertSet(columns, nzDefaults).0);
    BoundMeans(lib, lib.insertSet(columns, nzDefaults).1);
  }

  /** An update writes every chosen column, created_at only when the caller lists it; it is refused exactly
      when no column is left or one of them, or of the primary key, cannot be bound. */
  lemma UpdateWrites(lib: Library, primaryKey: seq<string>, columns: Columns)
    ensures var built, chosen, listed := BuildUpdate(lib, primaryKey, columns), lib.updateSet(columns), lib.isWhitelist(columns);
            && (built.Some? ==> forall c :: c in built.value.write <==> c in chosen && (c == "created_at" ==> listed))
            && (built.Some? <==>
                  && (exists c :: c in chosen && (c == "created_at" ==> listed))
                  && forall c :: (c in chosen && (c == "created_at" ==> listed)) || c in primaryKey ==> lib.bound(c))
  {
    var chosen := lib.updateSet(columns);
    WithoutLeaves(chosen, "created_at");
    var wl := if lib.isWhitelist(columns) then chosen else Without(chosen, "created_at");
    assert forall c :: c in wl <==> c in chosen && (c == "created_at" ==> lib.isWhitelist(columns));
    assert forall c :: c in wl + primaryKey <==> c in wl || c in primaryKey;
    BoundMeans(lib, wl + primaryKey);
    if wl != [] {
      assert wl[0] in wl;
    }
  }

  lemma BoundMeans(lib: Library, cols: seq<string>)
    ensures Bound(lib, cols) <==> forall c :: c in cols ==> lib.bound(c)
  {
    if forall c :: c in cols ==> lib.bound(c) {
      assert forall i :: 0 <= i < |cols| ==> cols[i] in cols;
    }
  }

  datatype Request = Request(columns: Columns, nzDefaults: seq<string>)

  class Table {
    const lib: Library
    const primaryKey: seq<string>
    const names: set<string>
    var inserts: map<string, Statement>
    var updates: map<string, Statement>

    constructor (lib: Library, primaryKey: seq<string>, names: set<string>)
      requires Plain(names) && UniquelyDecodable(names)
      ensures Valid() && this.lib == lib && this.primaryKey == primaryKey && this.names == names
      ensures inserts == map[] && updates == map[]
    {
      this.lib, this.primaryKey, this.names := lib, primaryKey, names;
      inserts, updates := map[], map[];
      new;
      KeysInjectiveExactly(names);
    }

    /** Each cached statement is the one its request builds afresh. */
    ghost predicate Valid()
      reads this
    {
      && KeysInjective(names)
      && (forall c, nz :: OnTable(names, c, nz) && Key(c, nz) in inserts ==> BuildInsert(lib, c, nz) == Some(inserts[Key(c, nz)]))
      && (forall c :: OnTable(names, c, []) && Key(c, []) in updates ==> BuildUpdate(lib, primaryKey, c) == Some(updates[Key(c, [])]))
    }

    /** The critical section that fills the insert cache. */
    method StoreInsert(key: string, columns: Columns, nzDefaults: seq<string>, cache: Statement)
      requires Valid() && OnTable(names, columns, nzDefaults)
      requires key == Key(columns, nzDefaults) && BuildInsert(lib, columns, nzDefaults) == Some(cache)
      modifies this`inserts
      ensures Valid() && inserts == old(inserts)[key := cache]
    {
      inserts := inserts[key := cache];
    }

    method StoreUpdate(key: string, columns: Columns, cache: Statement)
      requires Valid() && OnTable(names, columns, [])
      requires key == Key(columns, []) && BuildUpdate(lib, primaryKey, columns) == Some(cache)
      modifies this`updates
      ensures Valid() && updates == old(updates)[key := cache]
    {
      updates := updates[key := cache];
    }

    /** Other goroutines complete inserts and updates of their own. */
    method OthersAct()
      requires Valid()
      modifies this`inserts, this`updates
      ensures Valid()
    {
      var others: seq<Request> := *;
      for i := 0 to |others|
        invariant Valid()
      {
        var columns, nz := others[i].columns, others[i].nzDefaults;
        if OnTable(names, columns, nz) {
          var inserting: bool := *;
          if inserting {
            var built := BuildInsert(lib, columns, nz);
            if built.Some? {
              StoreInsert(Key(columns, nz), columns, nz, built.value);
            }
          } else {
            var built := BuildUpdate(lib, primaryKey, columns);
            if built.Some? {
              StoreUpdate(Key(columns, []), columns, built.value);
            }
          }
        }
      }
    }

    /** `Insert`: whatever the cache holds and whoever fills it meanwhile, the statement that runs is
        the freshly built one. */
    method Insert(columns: Columns, nzDefaults: seq<string>) returns (used: Option<Statement>, ok: bool)
      requires Valid() && OnTable(names, columns, nzDefaults)
      modifies this`inserts, this`updates
      ensures Valid()
      ensures used == BuildInsert(lib, columns, nzDefaults)
      ensures ok ==> used.Some?
    {
      var key := MakeCacheKey(columns, nzDefaults);
      OthersAct();
      var cached := key in inserts;
      var cache: Statement;
      if cached {
        cache := inserts[key];
      } else {
        var (wl, returnColumns) := lib.insertSet(columns, nzDefaults);
        if !Bound(lib, wl) || !Bound(lib, returnColumns) {
          return None, false;
        }
        cache := Statement(wl, returnColumns);
      }
      OthersAct();
      var executed: bool := *;
      if !executed {
        return Some(cache), false;
      }
      if !cached {
        StoreInsert(key, columns, nzDefaults, cache);
      }
      return Some(cache), true;
    }

    /** `Update`, keyed by the columns alone. */
    method Update(columns: Columns) returns (used: Option<Statement>, ok: bool)
      requires Valid() && OnTable(names, columns, [])
      modifies this`inserts, this`updates
      ensures Valid()
      ensures used == BuildUpdate(lib, primaryKey, columns)
      ensures ok ==> used.Some?
    {
      var key := MakeCacheKey(columns, []);
      OthersAct();
      var cached := key in updates;
      var cache: Statement;
      if cached {
        cache := updates[key];
      } else {
        var wl := lib.updateSet(columns);
        if !lib.isWhitelist(columns) {
          wl := Without(wl, "created_at");
        }
        if wl == [] || !Bound(lib, wl + primaryKey) {
          return None, false;
        }
        cache := Statement(wl, []);
      }
      OthersAct();
      var executed: bool := *;
      if !executed {
        return Some(cache), false;
      }
      if !cached {
        StoreUpdate(key, columns, cache);
      }
      return Some(cache), true;
    }
  }
}
