/**
 * Configuration lookup (backend/internal/config/service.go): a value set in
 * the process environment for one of the mapped keys wins over the stored
 * value; writes go to the database only. The environment is a map from
 * variable name to value, and an unset variable reads as "" as it does for
 * `os.Getenv`. Whether the database fails is a fixed flag per operation.
 */
module ConfigService {
  import opened Strings
  import opened EnvMapping

  /** Errors of the configuration repository (backend/internal/persistence/sqlite/config.go). */
  datatype ConfigError =
    | KeyNotFound(key: string)   // no row for the key
    | QueryFailed                // any other database error
    | WriteFailed

  /** `os.Getenv`: the value, or "" when the variable is unset. */
  function Getenv(env: map<string, string>, name: string): (r: string)
    ensures name !in env ==> r == []
    ensures name in env ==> r == env[name]
  {
    if name in env then env[name] else []
  }

  /** The environment's value for a key under a table of variable names:
      set only when the key is in the table and its variable is non-empty. */
  function OverrideIn(table: map<string, string>, env: map<string, string>, key: string): (r: Option<string>)
    ensures r.Some? <==> key in table && Getenv(env, table[key]) != []
    ensures r.Some? ==> r.value == Getenv(env, table[key]) && r.value != []
  {
    if key in table && Getenv(env, table[key]) != [] then Some(Getenv(env, table[key])) else None
  }

  /** The override for the service's own table. */
  function EnvOverride(env: map<string, string>, key: string): (r: Option<string>)
    ensures r.Some? <==> key in EnvKeyMap && Getenv(env, EnvKeyMap[key]) != []
    ensures r.Some? ==> r.value == Getenv(env, GetEnvKey(key))
  {
    OverrideIn(EnvKeyMap, env, key)
  }

  /** The stored entries, with every key whose variable is non-empty set to
      that value. */
  function OverlayWith(db: map<string, string>, table: map<string, string>, env: map<string, string>): (r: map<string, string>)
  {
    map k | k in db.Keys + table.Keys && (k in db || OverrideIn(table, env, k).Some?) ::
      if OverrideIn(table, env, k).Some? then OverrideIn(table, env, k).value else db[k]
  }

  /** The configuration GetAll reports. */
  function Overlay(db: map<string, string>, env: map<string, string>): map<string, string>
  {
    OverlayWith(db, EnvKeyMap, env)
  }

  /** The part of a table whose keys are in `done`. */
  function Restrict(table: map<string, string>, done: set<string>): (r: map<string, string>)
    ensures r.Keys == table.Keys * done
  {
    map k | k in table && k in done :: table[k]
  }

  /** Visiting one more key of the table: the overlay gains that key's
      override, if any. */
  lemma OverlayStep(db: map<string, string>, table: map<string, string>, env: map<string, string>,
                    done: set<string>, key: string)
    requires key in table
    ensures var before := OverlayWith(db, Restrict(table, done), env);
            var after := OverlayWith(db, Restrict(table, done + {key}), env);
            after == if Getenv(env, table[key]) != [] then before[key := Getenv(env, table[key])] else before
  {
    var before := OverlayWith(db, Restrict(table, done), env);
    var after := OverlayWith(db, Restrict(table, done + {key}), env);
    var expected := if Getenv(env, table[key]) != [] then before[key := Getenv(env, table[key])] else before;
    forall k ensures k in after <==> k in expected
    {
      OverlayStepAt(db, table, env, done, key, k);
    }
    forall k | k in after ensures after[k] == expected[k]
    {
      OverlayStepAt(db, table, env, done, key, k);
    }
    MapsEqual(after, expected);
  }

  lemma OverlayStepAt(db: map<string, string>, table: map<string, string>, env: map<string, string>,
                      done: set<string>, key: string, k: string)
    requires key in table
    ensures var before := OverlayWith(db, Restrict(table, done), env);
            var after := OverlayWith(db, Restrict(table, done + {key}), env);
            var expected := if Getenv(env, table[key]) != [] then before[key := Getenv(env, table[key])] else before;
            (k in after <==> k in expected) && (k in after ==> after[k] == expected[k])
  {
    OverlayAt(db, Restrict(table, done), env, k);
    OverlayAt(db, Restrict(table, done + {key}), env, k);
    RestrictStep(table, env, done, key, k);
  }

  lemma MapsEqual(a: map<string, string>, b: map<string, string>)
    requires forall k :: k in a <==> k in b
    requires forall k :: k in a ==> a[k] == b[k]
    ensures a == b
  {
  }

  /** The overlay, one key at a time. */
  lemma OverlayAt(db: map<string, string>, table: map<string, string>, env: map<string, string>, k: string)
    ensures k in OverlayWith(db, table, env) <==> k in db || OverrideIn(table, env, k).Some?
    ensures k in OverlayWith(db, table, env) ==>
              OverlayWith(db, table, env)[k] == if OverrideIn(table, env, k).Some? then OverrideIn(table, env, k).value else db[k]
  {
  }

  /** Adding a key to `done` changes the override of that key only. */
  lemma RestrictStep(table: map<string, string>, env: map<string, string>, done: set<string>, key: string, k: string)
    requires key in table
    ensures k != key ==> OverrideIn(Restrict(table, done + {key}), env, k) == OverrideIn(Restrict(table, done), env, k)
    ensures k == key ==> OverrideIn(Restrict(table, done + {key}), env, k) == OverrideIn(table, env, k)
  {
  }

  /** The overwrite loop, for any table of variable names. */
  method OverwriteFromEnv(db: map<string, string>, table: map<string, string>, env: map<string, string>)
    returns (configs: map<string, string>)
    ensures configs == OverlayWith(db, table, env)
  {
    configs := db;
    var remaining := table.Keys;
    OverlayNone(db, table, env);
    while remaining != {}
      invariant remaining <= table.Keys
      invariant configs == OverlayWith(db, Restrict(table, table.Keys - remaining), env)
      decreases |remaining|
    {
      var dbKey :| dbKey in remaining;
      OverlayStep(db, table, env, table.Keys - remaining, dbKey);
      var envVal := Getenv(env, table[dbKey]);
      if envVal != [] {
        configs := configs[dbKey := envVal];
      }
      assert table.Keys - (remaining - {dbKey}) == (table.Keys - remaining) + {dbKey};
      remaining := remaining - {dbKey};
    }
    assert Restrict(table, table.Keys - {}) == table;
  }

  /** With none of the table visited, the overlay is the stored map. */
  lemma OverlayNone(db: map<string, string>, table: map<string, string>, env: map<string, string>)
    ensures OverlayWith(db, Restrict(table, {}), env) == db
  {
    var r := OverlayWith(db, Restrict(table, {}), env);
    assert forall k :: k in r <==> k in db;
  }

  class Service {
    /** The `configs` table. */
    var db: map<string, string>
    const env: map<string, string>
    /** Whether reads of the table fail. */
    const readFails: bool
    /** Whether writes to the table fail. */
    const writeFails: bool

    constructor(db: map<string, string>, env: map<string, string>, readFails: bool, writeFails: bool)
      ensures this.db == db && this.env == env && this.readFails == readFails && this.writeFails == writeFails
    {
      this.db := db;
      this.env := env;
      this.readFails := readFails;
      this.writeFails := writeFails;
    }

    /** Get: the environment first, for mapped keys only; then the table. */
    function Get(key: string): (r: Result<string, ConfigError>)
      reads this
      ensures EnvOverride(env, key).Some? ==> r == Ok(EnvOverride(env, key).value)
      ensures key !in EnvKeyMap ==> r.Ok? == (!readFails && key in db)
      ensures EnvOverride(env, key).None? ==>
                (readFails ==> r == Err(QueryFailed)) &&
                (!readFails && key !in db ==> r == Err(KeyNotFound(key))) &&
                (!readFails && key in db ==> r == Ok(db[key]))
    {
      match EnvOverride(env, key)
      case Some(v) => Ok(v)
      case None =>
        if readFails then Err(QueryFailed)
        else if key !in db then Err(KeyNotFound(key))
        else Ok(db[key])
    }

    /** GetAll: the stored map, then an overwrite for each mapped key with a
        non-empty variable, visited in an unspecified order. */
    method GetAll() returns (r: Result<map<string, string>, ConfigError>)
      ensures readFails ==> r == Err(QueryFailed)
      ensures !readFails ==> r == Ok(Overlay(db, env))
    {
      if readFails {
        return Err(QueryFailed);
      }
      var configs := OverwriteFromEnv(db, EnvKeyMap, env);
      return Ok(configs);
    }

    /** Set: an upsert into the table; the environment is untouched. */
    method Set(key: string, value: string) returns (r: Option<ConfigError>)
      modifies this
      ensures writeFails ==> r == Some(WriteFailed) && db == old(db)
      ensures !writeFails ==> r.None? && db == old(db)[key := value]
    {
      if writeFails {
        return Some(WriteFailed);
      }
      db := db[key := value];
      return None;
    }
  }

  /** An unmapped key never consults the environment, whatever it holds. */
  lemma UnmappedIgnoresEnv(db: map<string, string>, env1: map<string, string>, env2: map<string, string>, key: string)
    requires key !in EnvKeyMap
    ensures LookupIn(db, env1, key) == LookupIn(db, env2, key)
    ensures key in Overlay(db, env1) <==> key in Overlay(db, env2)
    ensures key in Overlay(db, env1) ==> Overlay(db, env1)[key] == db[key] == Overlay(db, env2)[key]
  {
  }

  /** A value written through Set is what Get returns next, unless the key is
      overridden by the environment, in which case Get keeps returning the
      environment's value. */
  lemma SetThenGet(db: map<string, string>, env: map<string, string>, key: string, value: string)
    ensures var after := LookupIn(db[key := value], env, key);
            EnvOverride(env, key).Some? ==> after == Ok(EnvOverride(env, key).value)
    ensures var after := LookupIn(db[key := value], env, key);
            EnvOverride(env, key).None? ==> after == Ok(value)
  {
  }

  /** Get over a readable table, as a function of the table and the environment. */
  function LookupIn(db: map<string, string>, env: map<string, string>, key: string): (r: Result<string, ConfigError>)
    ensures r.Ok? <==> key in db || EnvOverride(env, key).Some?
  {
    match EnvOverride(env, key)
    case Some(v) => Ok(v)
    case None => if key in db then Ok(db[key]) else Err(KeyNotFound(key))
  }

  /** The class's Get is LookupIn on its current table when reads succeed. */
  lemma GetIsLookup(s: Service, key: string)
    requires !s.readFails
    ensures s.Get(key) == LookupIn(s.db, s.env, key)
  {
  }

  /** GetAll and Get agree: every key GetAll reports has the value Get
      returns, and every key Get finds is reported. */
  lemma GetAllAgreesWithGet(db: map<string, string>, env: map<string, string>, key: string)
    ensures key in Overlay(db, env) <==> LookupIn(db, env, key).Ok?
    ensures key in Overlay(db, env) ==> LookupIn(db, env, key) == Ok(Overlay(db, env)[key])
  {
    if EnvOverride(env, key).Some? {
      assert key in EnvKeyMap;
    }
  }
}
