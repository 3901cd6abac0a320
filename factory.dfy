/**
 * The factory: the registered executors and the proxy store. Saving a
 * batch touches or inserts one record at a time, keyed on (address, dial
 * type): the store's `updated_at` is refreshed on every row with the
 * record's key, and a fresh row is inserted only when no row matched.
 * The store is an in-memory sequence of rows standing for the table.
 */
module Factories {
  import opened Wrappers
  import opened Records
  import opened Settings
  import opened Executors

  // ---------------------------------------------------------------------
  // The reconciliation, as functions on rows
  // ---------------------------------------------------------------------

  /** `UPDATE ... SET updated_at = now WHERE address = ? AND dial_type = ?`. */
  function Touch(rows: seq<Proxy>, k: Key, now: int): (r: seq<Proxy>)
  {
    seq(|rows|, i requires 0 <= i < |rows| => if KeyOf(rows[i]) == k then rows[i].(updatedAt := now) else rows[i])
  }

  /** The number of rows the update matches. */
  function Matches(rows: seq<Proxy>, k: Key): (r: nat)
    decreases |rows|
  {
    if rows == [] then 0
    else Matches(rows[..|rows| - 1], k) + (if KeyOf(rows[|rows| - 1]) == k then 1 else 0)
  }

  /** The keys present in `rows`. */
  function RowKeys(rows: seq<Proxy>): (r: set<Key>)
  {
    set i | 0 <= i < |rows| :: KeyOf(rows[i])
  }

  /** The keys of a batch. */
  function Keys(batch: seq<Proxy>): (r: set<Key>)
    decreases |batch|
  {
    if batch == [] then {} else Keys(batch[..|batch| - 1]) + {KeyOf(batch[|batch| - 1])}
  }

  /** No key is held by two rows. */
  predicate Unique(rows: seq<Proxy>)
  {
    forall i, j :: 0 <= i < j < |rows| ==> KeyOf(rows[i]) != KeyOf(rows[j])
  }

  /** The loop body of `saveToDB` for one record: touch, and insert a fresh row when nothing matched. */
  function SaveOne(rows: seq<Proxy>, p: Proxy, now: int): (r: seq<Proxy>)
  {
    var touched := Touch(rows, KeyOf(p), now);
    if Matches(rows, KeyOf(p)) == 0 then touched + [NewRecord(p.address, p.provider, p.dialType, now)] else touched
  }

  /** `saveToDB` over a whole batch, in order. */
  function Save(rows: seq<Proxy>, batch: seq<Proxy>, now: int): (r: seq<Proxy>)
    decreases |batch|
  {
    if batch == [] then rows else SaveOne(Save(rows, batch[..|batch| - 1], now), batch[|batch| - 1], now)
  }

  // ---------------------------------------------------------------------
  // Properties
  // ---------------------------------------------------------------------

  /** The update matches nothing exactly when no row holds the key. */
  lemma {:induction false} MatchesZero(rows: seq<Proxy>, k: Key)
    ensures Matches(rows, k) == 0 <==> k !in RowKeys(rows)
    decreases |rows|
  {
    if rows != [] {
      var init := rows[..|rows| - 1];
      MatchesZero(init, k);
      assert RowKeys(rows) == RowKeys(init) + {KeyOf(rows[|rows| - 1])} by {
        forall q | q in RowKeys(rows) ensures q in RowKeys(init) + {KeyOf(rows[|rows| - 1])} {
          var i :| 0 <= i < |rows| && KeyOf(rows[i]) == q;
          if i < |rows| - 1 {
            assert KeyOf(init[i]) == q;
          }
        }
        forall q | q in RowKeys(init) ensures q in RowKeys(rows) {
          var i :| 0 <= i < |init| && KeyOf(init[i]) == q;
          assert KeyOf(rows[i]) == q;
        }
      }
    }
  }

  /**
   * One record, key already stored: no row is added, the matching rows
   * get `updated_at = now` and keep everything else (their error count
   * included), and every other row is unchanged.
   */
  lemma SaveOneExisting(rows: seq<Proxy>, p: Proxy, now: int)
    requires KeyOf(p) in RowKeys(rows)
    ensures var r := SaveOne(rows, p, now);
      && |r| == |rows|
      && (forall i :: 0 <= i < |rows| && KeyOf(rows[i]) == KeyOf(p) ==>
            r[i].updatedAt == now && r[i].errTimes == rows[i].errTimes && r[i].createdAt == rows[i].createdAt
            && r[i].address == rows[i].address && r[i].dialType == rows[i].dialType && r[i].provider == rows[i].provider)
      && (forall i :: 0 <= i < |rows| && KeyOf(rows[i]) != KeyOf(p) ==> r[i] == rows[i])
  {
    MatchesZero(rows, KeyOf(p));
  }

  /** One record, key not stored: exactly one fresh row is appended and nothing else changes. */
  lemma SaveOneMissing(rows: seq<Proxy>, p: Proxy, now: int)
    requires KeyOf(p) !in RowKeys(rows)
    ensures var r := SaveOne(rows, p, now);
      && |r| == |rows| + 1
      && r == rows + [r[|rows|]]
      && r[|rows|].address == p.address && r[|rows|].dialType == p.dialType && r[|rows|].provider == p.provider
      && r[|rows|].errTimes == 0 && r[|rows|].createdAt == now && r[|rows|].updatedAt == now
  {
    MatchesZero(rows, KeyOf(p));
    TouchAbsent(rows, KeyOf(p), now);
  }

  /** Touching a key no row holds changes nothing. */
  lemma TouchAbsent(rows: seq<Proxy>, k: Key, now: int)
    requires k !in RowKeys(rows)
    ensures Touch(rows, k, now) == rows
  {
    forall i | 0 <= i < |rows| ensures KeyOf(rows[i]) != k {
      assert KeyOf(rows[i]) in RowKeys(rows);
    }
  }

  /** What one step does to the keys: the record's key is added. */
  lemma SaveOneKeys(rows: seq<Proxy>, p: Proxy, now: int)
    ensures RowKeys(SaveOne(rows, p, now)) == RowKeys(rows) + {KeyOf(p)}
  {
    var r := SaveOne(rows, p, now);
    var t := Touch(rows, KeyOf(p), now);
    assert RowKeys(t) == RowKeys(rows) by {
      forall q | q in RowKeys(t) ensures q in RowKeys(rows) {
        var i :| 0 <= i < |t| && KeyOf(t[i]) == q;
        assert KeyOf(rows[i]) == q;
      }
      forall q | q in RowKeys(rows) ensures q in RowKeys(t) {
        var i :| 0 <= i < |rows| && KeyOf(rows[i]) == q;
        assert KeyOf(t[i]) == q;
      }
    }
    MatchesZero(rows, KeyOf(p));
    if Matches(rows, KeyOf(p)) == 0 {
      assert KeyOf(r[|t|]) == KeyOf(p);
      forall q | q in RowKeys(r) ensures q in RowKeys(rows) + {KeyOf(p)} {
        var i :| 0 <= i < |r| && KeyOf(r[i]) == q;
        if i < |t| {
          assert KeyOf(t[i]) == q;
        }
      }
      forall q | q in RowKeys(t) ensures q in RowKeys(r) {
        var i :| 0 <= i < |t| && KeyOf(t[i]) == q;
        assert KeyOf(r[i]) == q;
      }
    }
  }

  /** After saving, every key of the batch is stored, and no other new key appears. */
  lemma {:induction false} SaveKeys(rows: seq<Proxy>, batch: seq<Proxy>, now: int)
    ensures RowKeys(Save(rows, batch, now)) == RowKeys(rows) + Keys(batch)
    decreases |batch|
  {
    if batch != [] {
      SaveKeys(rows, batch[..|batch| - 1], now);
      SaveOneKeys(Save(rows, batch[..|batch| - 1], now), batch[|batch| - 1], now);
    }
  }

  /**
   * Saving keeps the old rows in place: a row whose key is in the batch
   * has only its `updated_at` set to `now`; every other row is unchanged.
   */
  lemma {:induction false} SaveKeepsRows(rows: seq<Proxy>, batch: seq<Proxy>, now: int)
    ensures var r := Save(rows, batch, now);
      && |r| >= |rows|
      && forall i :: 0 <= i < |rows| ==>
        r[i] == if KeyOf(rows[i]) in Keys(batch) then rows[i].(updatedAt := now) else rows[i]
    decreases |batch|
  {
    if batch != [] {
      var init := batch[..|batch| - 1];
      SaveKeepsRows(rows, init, now);
    }
  }

  /**
   * The rows a save appends are fresh records of batch keys that had no
   * row before: no errors, first and last seen `now`.
   */
  lemma {:induction false} SaveNewRows(rows: seq<Proxy>, batch: seq<Proxy>, now: int)
    ensures var r := Save(rows, batch, now);
      forall i :: |rows| <= i < |r| ==>
        && r[i].errTimes == 0 && r[i].createdAt == now && r[i].updatedAt == now
        && KeyOf(r[i]) in Keys(batch) && KeyOf(r[i]) !in RowKeys(rows)
    decreases |batch|
  {
    if batch != [] {
      var init := batch[..|batch| - 1];
      var p := batch[|batch| - 1];
      var mid := Save(rows, init, now);
      var r := Save(rows, batch, now);
      assert r == SaveOne(mid, p, now);
      assert Keys(batch) == Keys(init) + {KeyOf(p)};
      SaveNewRows(rows, init, now);
      SaveKeepsRows(rows, init, now);
      forall i | |rows| <= i < |r|
        ensures r[i].errTimes == 0 && r[i].createdAt == now && r[i].updatedAt == now
        ensures KeyOf(r[i]) in Keys(batch) && KeyOf(r[i]) !in RowKeys(rows)
      {
        if i < |mid| {
          assert KeyOf(r[i]) == KeyOf(mid[i]);
        } else {
          assert i == |mid| && Matches(mid, KeyOf(p)) == 0;
          assert r[i] == NewRecord(p.address, p.provider, p.dialType, now);
          assert KeyOf(p) !in RowKeys(rows) by {
            MatchesZero(mid, KeyOf(p));
            SaveKeys(rows, init, now);
          }
        }
      }
    }
  }

  /** Saving keeps the keys unique, even when the batch repeats a key. */
  lemma {:induction false} SaveUnique(rows: seq<Proxy>, batch: seq<Proxy>, now: int)
    requires Unique(rows)
    ensures Unique(Save(rows, batch, now))
    decreases |batch|
  {
    if batch != [] {
      var init := batch[..|batch| - 1];
      var p := batch[|batch| - 1];
      var mid := Save(rows, init, now);
      SaveUnique(rows, init, now);
      MatchesZero(mid, KeyOf(p));
      var t := Touch(mid, KeyOf(p), now);
      assert forall i :: 0 <= i < |mid| ==> KeyOf(t[i]) == KeyOf(mid[i]);
      if Matches(mid, KeyOf(p)) == 0 {
        var r := SaveOne(mid, p, now);
        forall i | 0 <= i < |mid| ensures KeyOf(r[i]) != KeyOf(r[|mid|]) {
          assert KeyOf(mid[i]) in RowKeys(mid);
        }
      }
    }
  }

  /**
   * A save changes nothing when every batch key is stored and every row
   * with a batch key was already touched at `now`.
   */
  lemma {:induction false} SaveSettled(rows: seq<Proxy>, batch: seq<Proxy>, now: int)
    requires Keys(batch) <= RowKeys(rows)
    requires forall i :: 0 <= i < |rows| && KeyOf(rows[i]) in Keys(batch) ==> rows[i].updatedAt == now
    ensures Save(rows, batch, now) == rows
    decreases |batch|
  {
    if batch != [] {
      var init := batch[..|batch| - 1];
      var p := batch[|batch| - 1];
      SaveSettled(rows, init, now);
      MatchesZero(rows, KeyOf(p));
      var t := Touch(rows, KeyOf(p), now);
      forall i | 0 <= i < |rows| ensures t[i] == rows[i] {
        if KeyOf(rows[i]) == KeyOf(p) {
          assert rows[i].(updatedAt := now) == rows[i];
        }
      }
    }
  }

  /** Saving the same batch twice at the same instant is the same as saving it once. */
  lemma SaveIdempotent(rows: seq<Proxy>, batch: seq<Proxy>, now: int)
    ensures Save(Save(rows, batch, now), batch, now) == Save(rows, batch, now)
    ensures |Save(Save(rows, batch, now), batch, now)| == |Save(rows, batch, now)|
  {
    var r := Save(rows, batch, now);
    SaveKeys(rows, batch, now);
    SaveKeepsRows(rows, batch, now);
    SaveNewRows(rows, batch, now);
    forall i | 0 <= i < |r| && KeyOf(r[i]) in Keys(batch) ensures r[i].updatedAt == now {
      if i < |rows| {
        assert KeyOf(r[i]) == KeyOf(rows[i]);
      }
    }
    SaveSettled(r, batch, now);
  }

  /**
   * A second save of the same batch, at any later instant, adds no row:
   * every row whose key is in the batch has `updated_at` moved to the
   * second instant, and every other row is unchanged.
   */
  lemma SaveAgain(rows: seq<Proxy>, batch: seq<Proxy>, now: int, later: int)
    ensures var r := Save(rows, batch, now);
      var r2 := Save(r, batch, later);
      && |r2| == |r|
      && (forall i :: 0 <= i < |r| && KeyOf(r[i]) in Keys(batch) ==> r2[i] == r[i].(updatedAt := later))
      && (forall i :: 0 <= i < |r| && KeyOf(r[i]) !in Keys(batch) ==> r2[i] == r[i])
  {
    var r := Save(rows, batch, now);
    SaveKeys(rows, batch, now);
    SaveStored(r, batch, later);
    SaveKeepsRows(r, batch, later);
  }

  /** A batch whose keys are all stored adds no row. */
  lemma {:induction false} SaveStored(rows: seq<Proxy>, batch: seq<Proxy>, now: int)
    requires Keys(batch) <= RowKeys(rows)
    ensures |Save(rows, batch, now)| == |rows|
    decreases |batch|
  {
    if batch != [] {
      var init := batch[..|batch| - 1];
      var p := batch[|batch| - 1];
      var mid := Save(rows, init, now);
      assert Keys(batch) == Keys(init) + {KeyOf(p)};
      SaveStored(rows, init, now);
      SaveKeys(rows, init, now);
      MatchesZero(mid, KeyOf(p));
    }
  }

  // ---------------------------------------------------------------------
  // The store and the factory objects
  // ---------------------------------------------------------------------

  /** A store operation, as issued. */
  datatype StoreOp = UpdateOp(key: Key, now: int) | CreateOp(row: Proxy)

  /**
   * The proxy table, opened elsewhere with whatever rows it already holds.
   * `log` records, for the proofs, every operation issued against it.
   */
  class Store {
    var rows: seq<Proxy>
    ghost var log: seq<StoreOp>

    /** The keyed `updated_at` update; returns the number of rows it matched. */
    method Update(k: Key, now: int) returns (affected: nat)
      modifies this
      ensures affected == Matches(old(rows), k)
      ensures rows == Touch(old(rows), k, now)
      ensures log == old(log) + [UpdateOp(k, now)]
    {
      affected := Matches(rows, k);
      rows := Touch(rows, k, now);
      log := log + [UpdateOp(k, now)];
    }

    /** The insert of one row. */
    method Create(p: Proxy)
      modifies this
      ensures rows == old(rows) + [p]
      ensures log == old(log) + [CreateOp(p)]
    {
      rows := rows + [p];
      log := log + [CreateOp(p)];
    }
  }

  /** `factory.fetch_interval`, in seconds; zero falls back to 10. */
  function FetchInterval(cfg: Config): (r: int)
    ensures cfg.GetInt("factory.fetch_interval") == 0 ==> r == 10
    ensures cfg.GetInt("factory.fetch_interval") != 0 ==> r == cfg.GetInt("factory.fetch_interval")
  {
    OrDefaultInt(cfg.GetInt("factory.fetch_interval"), 10)
  }

  /** `Factory`: the registered executors, in registration order, and the store. */
  class Factory {
    var executors: seq<Option<Executor>>
    const database: Store

    /** `NewFactory`, given the opened store: no executors yet. */
    constructor (db: Store)
      ensures executors == [] && database == db
    {
      executors := [];
      database := db;
    }

    /** `RegisterExecutor`: append at the end, nil included. */
    method RegisterExecutor(e: Option<Executor>)
      modifies this`executors
      ensures executors == old(executors) + [e]
    {
      executors := executors + [e];
    }

    /**
     * `saveToDB`: an empty or nil batch issues no store operation at all;
     * otherwise each record, in order, is touched and, when nothing
     * matched, inserted as a fresh row.
     */
    method SaveToDB(batch: Batch, now: int)
      modifies database
      ensures database.rows == Save(old(database.rows), batch.Items(), now)
      ensures |batch.Items()| == 0 ==> database.log == old(database.log)
      ensures |batch.Items()| > 0 ==> |database.log| >= |old(database.log)| + |batch.Items()|
    {
      var proxies := batch.Items();
      if |proxies| == 0 {
        return;
      }
      var i := 0;
      while i < |proxies|
        invariant 0 <= i <= |proxies|
        invariant database.rows == Save(old(database.rows), proxies[..i], now)
        invariant |database.log| >= |old(database.log)| + i
      {
        var pxy := proxies[i];
        assert proxies[..i + 1][..i] == proxies[..i];
        var affected := database.Update(KeyOf(pxy), now);
        if affected == 0 {
          database.Create(NewRecord(pxy.address, pxy.provider, pxy.dialType, now));
        }
        i := i + 1;
      }
      assert proxies[..i] == proxies;
    }
  }
}
