/** The database store: an open-once cache from a lower-cased logical name to
    an engine handle. Entries are added, never removed. */
module DbStore {
  import opened GoBase
  import opened GoStrings
  import opened Sqlite

  /** The data source name `openlite` passes to the engine: the file path,
      then `?`, then the URI-style options given at startup. */
  function Dsn(filename: string, options: string): string {
    filename + "?" + options
  }

  /** The key a file found at startup is stored under: its base name cut at
      the first `.db`, lower-cased. */
  function StartupKey(name: string): string {
    ToLower(Before(name, ".db"))
  }

  /** Every entry of `m` is still in `m'`, bound to the same handle. */
  ghost predicate Grows(m: map<string, Handle>, m': map<string, Handle>) {
    forall k :: k in m ==> k in m' && m'[k] == m[k]
  }

  /** The first failure the startup scan meets when it opens, then pings,
      each of `names` in turn. */
  function StartupFailure(eng: Engine, dir: string, options: string, names: seq<string>): Option<Error>
    decreases |names|
  {
    if names == [] then None
    else
      var earlier := StartupFailure(eng, dir, options, names[..|names| - 1]);
      if earlier.Some? then earlier
      else
        var dsn := Dsn(Join(dir, names[|names| - 1]), options);
        if eng.open(dsn).Some? then eng.open(dsn) else eng.ping(dsn)
  }

  /** The data source name each startup key ends up bound to: a later file
      with the same key replaces an earlier one. */
  function StartupDsns(dir: string, options: string, names: seq<string>): map<string, string>
    decreases |names|
  {
    if names == [] then map[]
    else
      var last := names[|names| - 1];
      StartupDsns(dir, options, names[..|names| - 1])[StartupKey(last) := Dsn(Join(dir, last), options)]
  }

  /** Once the startup scan has failed, scanning more files keeps that failure. */
  lemma {:induction false} StartupFailureSticks(eng: Engine, dir: string, options: string, names: seq<string>, more: seq<string>)
    requires StartupFailure(eng, dir, options, names).Some?
    ensures StartupFailure(eng, dir, options, names + more) == StartupFailure(eng, dir, options, names)
    decreases |more|
  {
    if more == [] {
      assert names + more == names;
    } else {
      var init := more[..|more| - 1];
      StartupFailureSticks(eng, dir, options, names, init);
      var all := names + more;
      assert all[..|all| - 1] == names + init;
      assert StartupFailure(eng, dir, options, all) == StartupFailure(eng, dir, options, names + init);
    }
  }

  /** One more file scanned: its open and ping decide the failure unless an
      earlier file failed, and its key is bound to its data source. */
  lemma StartupStep(eng: Engine, dir: string, options: string, names: seq<string>, i: nat)
    requires i < |names|
    ensures var dsn := Dsn(Join(dir, names[i]), options);
            StartupFailure(eng, dir, options, names[..i + 1])
            == if StartupFailure(eng, dir, options, names[..i]).Some? then StartupFailure(eng, dir, options, names[..i])
               else if eng.open(dsn).Some? then eng.open(dsn) else eng.ping(dsn)
    ensures StartupDsns(dir, options, names[..i + 1])
            == StartupDsns(dir, options, names[..i])[StartupKey(names[i]) := Dsn(Join(dir, names[i]), options)]
  {
    assert names[..i + 1][..i] == names[..i];
  }

  /** A failure among the first `n` files is the failure of the whole scan. */
  lemma StartupFailureFinal(eng: Engine, dir: string, options: string, names: seq<string>, n: nat)
    requires n <= |names| && StartupFailure(eng, dir, options, names[..n]).Some?
    ensures StartupFailure(eng, dir, options, names) == StartupFailure(eng, dir, options, names[..n])
  {
    StartupFailureSticks(eng, dir, options, names[..n], names[n..]);
    assert names[..n] + names[n..] == names;
  }

  /** The startup keys are exactly the normalised base names of the files found. */
  lemma {:induction false} StartupKeysAreFileKeys(dir: string, options: string, names: seq<string>)
    ensures StartupDsns(dir, options, names).Keys == set n | n in names :: StartupKey(n)
    decreases |names|
  {
    if names != [] {
      var init := names[..|names| - 1];
      StartupKeysAreFileKeys(dir, options, init);
      assert names == init + [names[|names| - 1]];
    }
  }

  /** Of several files with the same startup key, the last one scanned is
      the one the key ends up bound to. */
  lemma {:induction false} StartupLastFileWins(dir: string, options: string, names: seq<string>, j: nat)
    requires j < |names|
    requires forall i :: j < i < |names| ==> StartupKey(names[i]) != StartupKey(names[j])
    ensures StartupKey(names[j]) in StartupDsns(dir, options, names)
    ensures StartupDsns(dir, options, names)[StartupKey(names[j])] == Dsn(Join(dir, names[j]), options)
    decreases |names|
  {
    if j < |names| - 1 {
      StartupLastFileWins(dir, options, names[..|names| - 1], j);
    }
  }

  /** A file whose name has no upper-case letter is stored under a key that
      the session's `UseDB` never asks for: `UseDB` always asks for a name
      ending in `.db`, and such a key has no `.db` in it. */
  lemma StartupKeyNeverRequested(name: string, dbname: string)
    requires ToLower(name) == name
    ensures StartupKey(name) != ToLower(dbname) + ".db"
  {
  }

  /** The file `foo.db` found at startup is stored under `foo`, while a
      session selecting `foo` makes the store look up `foo.db`, and so open
      the same data source a second time. */
  lemma StartupAndSessionKeysDiffer(name: string)
    requires '.' !in name && ToLower(name) == name
    ensures StartupKey(name + ".db") == name
    ensures ToLower(ToLower(name) + ".db") == name + ".db" != name
  {
    CutAtExtension(name);
    ToLowerAppend(name, ".db");
    ExtensionIsLower();
    assert |name + ".db"| != |name|;
  }

  /** A name without dots, followed by `.db`, is cut back to itself. */
  lemma CutAtExtension(name: string)
    requires '.' !in name
    ensures Before(name + ".db", ".db") == name
  {
    var s := name + ".db";
    forall i | 0 <= i < |name| ensures !OccursAt(s, ".db", i) {
      assert s[i] == name[i] != '.';
    }
    assert s[|name|..|name| + 3] == ".db";
    BeforeFirstOccurrence(s, ".db", |name|);
    assert s[..|name|] == name;
  }

  lemma ExtensionIsLower()
    ensures ToLower(".db") == ".db"
  {
  }

  /** `Before` cuts exactly at the first occurrence of the separator. */
  lemma BeforeFirstOccurrence(s: string, sep: string, n: nat)
    requires sep != [] && OccursAt(s, sep, n)
    requires forall i :: 0 <= i < n ==> !OccursAt(s, sep, i)
    ensures Before(s, sep) == s[..n]
  {
  }

  class Store {
    const basedir: string
    /** The URI-style options appended to every data source name. */
    const options: string
    var databases: map<string, Handle>

    /** Keys are lower-case, and no two names share a handle. */
    ghost predicate Valid()
      reads this
    {
      && (forall k :: k in databases ==> ToLower(k) == k)
      && (forall k1, k2 :: k1 in databases && k2 in databases && k1 != k2 ==> databases[k1] != databases[k2])
    }

    constructor Empty(dir: string, options: string)
      ensures basedir == dir && this.options == options
      ensures databases == map[] && Valid()
    {
      basedir := dir;
      this.options := options;
      databases := map[];
    }

    /** `openlite`: asks the engine for a handle on `filename + "?" + options`. */
    method Openlite(filename: string, eng: Engine) returns (r: Result<Handle>)
      ensures r.Err? <==> eng.open(Dsn(filename, options)).Some?
      ensures r.Err? ==> r.error == eng.open(Dsn(filename, options)).value
      ensures r.Ok? ==> fresh(r.value) && r.value.dsn == Dsn(filename, options)
    {
      var refused := eng.open(Dsn(filename, options));
      if refused.Some? {
        return Err(refused.value);
      }
      var db := new Handle(Dsn(filename, options));
      return Ok(db);
    }

    /** `NewStore`: opens and pings every file the startup scan matched
        (`names` are their base names, all in `dir`) and stores each under
        its startup key; the first failure aborts construction. */
    static method NewStore(dir: string, options: string, names: seq<string>, eng: Engine) returns (r: Result<Store>)
      ensures r.Err? <==> StartupFailure(eng, dir, options, names).Some?
      ensures r.Err? ==> r.error == StartupFailure(eng, dir, options, names).value
      ensures r.Ok? ==> fresh(r.value) && r.value.Valid()
      ensures r.Ok? ==> r.value.basedir == dir && r.value.options == options
      ensures r.Ok? ==> r.value.databases.Keys == StartupDsns(dir, options, names).Keys
      ensures r.Ok? ==> forall k :: k in r.value.databases ==>
                fresh(r.value.databases[k]) && r.value.databases[k].dsn == StartupDsns(dir, options, names)[k]
    {
      var s := new Store.Empty(dir, options);
      for i := 0 to |names|
        invariant s.basedir == dir && s.options == options && s.Valid()
        invariant StartupFailure(eng, dir, options, names[..i]).None?
        invariant s.databases.Keys == StartupDsns(dir, options, names[..i]).Keys
        invariant forall k :: k in s.databases ==>
                    fresh(s.databases[k]) && s.databases[k].dsn == StartupDsns(dir, options, names[..i])[k]
      {
        StartupStep(eng, dir, options, names, i);
        var attempt := s.Openlite(Join(dir, names[i]), eng);
        if attempt.Err? {
          StartupFailureFinal(eng, dir, options, names, i + 1);
          return Err(attempt.error);
        }
        var db := attempt.value;
        var dead := eng.ping(db.dsn);
        if dead.Some? {
          StartupFailureFinal(eng, dir, options, names, i + 1);
          return Err(dead.value);
        }
        var key := StartupKey(names[i]);
        LowerKey(names[i]);
        s.databases := s.databases[key := db];
      }
      assert names[..|names|] == names;
      return Ok(s);
    }

    /** `GetDB`: the handle cached under the lower-cased name, or else a new
        handle on `basedir/name`, which is then cached. */
    method GetDB(name: string, eng: Engine) returns (r: Result<Handle>)
      requires Valid()
      modifies this
      ensures Valid() && Grows(old(databases), databases)
      ensures ToLower(name) in old(databases) ==>
                r == Ok(old(databases)[ToLower(name)]) && databases == old(databases)
      ensures ToLower(name) !in old(databases) ==>
                (r.Err? <==> eng.open(Dsn(Join(basedir, ToLower(name)), options)).Some?)
      ensures ToLower(name) !in old(databases) && r.Err? ==>
                r.error == eng.open(Dsn(Join(basedir, ToLower(name)), options)).value && databases == old(databases)
      ensures ToLower(name) !in old(databases) && r.Ok? ==>
                && fresh(r.value) && r.value.dsn == Dsn(Join(basedir, ToLower(name)), options)
                && databases == old(databases)[ToLower(name) := r.value]
    {
      var key := ToLower(name);
      if key in databases {
        return Ok(databases[key]);
      }
      r := Openlite(Join(basedir, key), eng);
      if r.Err? {
        return;
      }
      ToLowerIdempotent(name);
      databases := databases[key := r.value];
    }
  }

  /** Startup keys are lower-case. */
  lemma LowerKey(name: string)
    ensures ToLower(StartupKey(name)) == StartupKey(name)
  {
  }

  /** Two lookups of one name, spelled in any letter case, give the same
      handle once the first has succeeded. */
  method RepeatedLookup(s: Store, first: string, second: string, eng: Engine) returns (r1: Result<Handle>, r2: Result<Handle>)
    requires s.Valid() && SameUpToCase(first, second)
    modifies s
    ensures s.Valid()
    ensures r1.Ok? ==> r2 == r1
  {
    ToLowerIdentifiesCase(first, second);
    r1 := s.GetDB(first, eng);
    r2 := s.GetDB(second, eng);
  }
}
