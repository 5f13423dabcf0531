/** ORZ `DB`: the static registry `DB.Databases` from logical database names to `DB` objects,
    filled by `DB.Open`, and its text listing. Whether a connection opens is the `connects`
    parameter; a `DbProviderFactory` is known by its runtime type name. */
module Db {
  import opened Common
  import opened Strings

  datatype Factory = Factory(typeName: string)

  /** What `Open` reads and writes of a `DB` object; `None` is null. */
  datatype DbState = DbState(provider: Option<Factory>, connectionString: Option<string>)

  /** `conn.Open()` on a connection made by the factory with the given connection string. */
  type Connects = (Factory, Option<string>) -> bool

  /** The checks and updates `Open` performs on the `DB` object it found or created, in source
      order: the stored provider is overwritten before the connection string is checked and
      before the connection is tried; the connection string is stored only after the
      connection opened. Returns the error raised, if any, and the object's new state. */
  function OpenStep(before: DbState, provider: Option<Factory>, connectionString: Option<string>, connects: Connects)
    : (Option<Error>, DbState)
  {
    if before.provider.None? && provider.None? then (Some(NullArgument("Provider")), before)
    else
      var mid := before.(provider := provider);
      if IsNullOrWhiteSpace(before.connectionString) && IsNullOrWhiteSpace(connectionString) then
        (Some(NullArgument("Connection String")), mid)
      else if provider.None? then (Some(NullReference), mid)
      else if !connects(provider.value, connectionString) then (Some(ConnectionFailed), mid)
      else (None, mid.(connectionString := connectionString))
  }

  /** What one `Open` does to the object's state: it succeeds exactly when a provider is given,
      some connection string (stored or given) is not blank and the connection opens, and then
      the object holds exactly the given provider and string. A failed call keeps the stored
      string; past the provider check it has already replaced the stored provider, so a null
      provider argument erases a stored one. */
  lemma OpenStepRules(before: DbState, provider: Option<Factory>, connectionString: Option<string>, connects: Connects)
    ensures var (err, after) := OpenStep(before, provider, connectionString, connects);
            (err.None? <==> provider.Some?
                            && !(IsNullOrWhiteSpace(before.connectionString) && IsNullOrWhiteSpace(connectionString))
                            && connects(provider.value, connectionString))
            && (err.None? ==> after == DbState(provider, connectionString))
            && (err.Some? ==> after.connectionString == before.connectionString)
            && (err != Some(NullArgument("Provider")) ==> after.provider == provider)
            && (err == Some(NullArgument("Provider")) <==> before.provider.None? && provider.None?)
            && (provider.None? ==> err.Some? && after.provider.None?)
  {
  }

  /** A `DB` object; its fields are changed in place by `Open`. */
  class Db {
    var provider: Option<Factory>
    var connectionString: Option<string>

    function State(): DbState
      reads this
    {
      DbState(provider, connectionString)
    }

    /** `new DB()`: no provider, no connection string. */
    constructor ()
      ensures State() == DbState(None, None)
    {
      provider := None;
      connectionString := None;
    }

    /** The checks and assignments `Open` performs once it holds this object. */
    method Configure(provider: Option<Factory>, connectionString: Option<string>, connects: Connects)
      returns (err: Option<Error>)
      modifies this
      ensures (err, State()) == OpenStep(old(State()), provider, connectionString, connects)
    {
      if this.provider.None? && provider.None? {
        return Some(NullArgument("Provider"));
      }
      var storedConnectionString := this.connectionString;
      this.provider := provider;
      if IsNullOrWhiteSpace(storedConnectionString) && IsNullOrWhiteSpace(connectionString) {
        return Some(NullArgument("Connection String"));
      }
      if provider.None? {
        return Some(NullReference);
      }
      if !connects(provider.value, connectionString) {
        return Some(ConnectionFailed);
      }
      this.connectionString := connectionString;
      err := None;
    }
  }

  const Separator: string := "----------"
  const NewLine: string := "\r\n"

  /** The listing's first two lines: the number of registered databases, then a separator. */
  function Header(count: nat): string
  {
    "总计连接数据库" + NatToString(count) + "个" + NewLine + Separator + NewLine
  }

  /** One registered database; reading the type of a null provider throws. */
  function EntryLine(name: string, s: DbState): Result<string>
  {
    if s.provider.None? then Err(NullReference)
    else
      var cs := if s.connectionString.Some? then s.connectionString.value else "";
      Ok("DBName:" + name + "  Provider:" + s.provider.value.typeName + "  ConnectionString:" + cs + NewLine)
  }

  function EntryLines(entries: seq<(string, DbState)>): Result<string>
    decreases |entries|
  {
    if |entries| == 0 then Ok("")
    else
      match EntryLines(entries[..|entries| - 1])
      case Err(err) => Err(err)
      case Ok(text) =>
        var (name, s) := entries[|entries| - 1];
        match EntryLine(name, s)
        case Err(err) => Err(err)
        case Ok(line) => Ok(text + line)
  }

  /** `ListDatabases()` over the registry's entries in insertion order. */
  function Listing(entries: seq<(string, DbState)>): Result<string>
  {
    if |entries| == 0 then Ok(Header(0))
    else
      match EntryLines(entries)
      case Err(err) => Err(err)
      case Ok(text) => Ok(Header(|entries|) + text + Separator + NewLine)
  }

  /** The lines fail exactly when some registered database has no provider. */
  lemma {:induction false} EntryLinesFailIff(entries: seq<(string, DbState)>)
    ensures EntryLines(entries).Err? <==> exists i :: 0 <= i < |entries| && entries[i].1.provider.None?
    decreases |entries|
  {
    if |entries| > 0 {
      var init := entries[..|entries| - 1];
      EntryLinesFailIff(init);
      assert forall i :: 0 <= i < |init| ==> init[i] == entries[i];
    }
  }

  /** The listing is the header alone for an empty registry; otherwise the header, the lines
      and a closing separator, and it throws exactly when an entry has no provider. */
  lemma ListingShape(entries: seq<(string, DbState)>)
    ensures |entries| == 0 ==> Listing(entries) == Ok(Header(0))
    ensures Listing(entries).Err? <==> exists i :: 0 <= i < |entries| && entries[i].1.provider.None?
    ensures Listing(entries).Ok? && |entries| > 0 ==>
              var text := Listing(entries).value;
              var h := Header(|entries|);
              |text| >= |h| + |Separator + NewLine| && text[..|h|] == h
              && text[|text| - |Separator + NewLine|..] == Separator + NewLine
  {
    EntryLinesFailIff(entries);
  }

  /** `DB.Databases`: names in insertion order (the dictionary's enumeration order, as nothing
      is ever removed) and the object each name maps to; every name has its own object. */
  class Registry {
    var names: seq<string>
    var databases: map<string, Db>

    ghost predicate Valid()
      reads this
    {
      (forall k :: k in databases <==> k in names)
      && (forall i, j :: 0 <= i < j < |names| ==> names[i] != names[j])
      && (forall k1, k2 :: k1 in databases && k2 in databases && k1 != k2 ==> databases[k1] != databases[k2])
    }

    constructor ()
      ensures Valid() && names == [] && databases == map[]
    {
      names := [];
      databases := map[];
    }

    /** The registry's entries in enumeration order, with each object's current state. */
    function Entries(): seq<(string, DbState)>
      requires Valid()
      reads this, databases.Values
    {
      seq(|names|, i requires 0 <= i < |names| && Valid() reads this, databases.Values =>
        (names[i], databases[names[i]].State()))
    }

    /** The object registered under `name`, registering a new one first when the name is
        unknown. */
    method Register(name: string) returns (db: Db)
      requires Valid()
      modifies this
      ensures Valid()
      ensures name in databases && db == databases[name]
      ensures name in old(databases) ==> names == old(names) && databases == old(databases)
      ensures name !in old(databases) ==>
                names == old(names) + [name] && fresh(db) && databases == old(databases)[name := db]
                && db.State() == DbState(None, None)
    {
      if name in databases {
        db := databases[name];
      } else {
        db := new Db();
        databases := databases[name := db];
        names := names + [name];
      }
    }

    /** `DB.Open(provider, connectionString, dbName)`. An unknown name is registered with a new
        object before any check, so it stays registered whatever happens next. */
    method Open(provider: Option<Factory>, connectionString: Option<string>, dbName: Option<string>, connects: Connects)
      returns (r: Result<Db>)
      requires Valid()
      modifies this, databases.Values
      ensures Valid()
      ensures dbName.None? ==> r == Err(NullKey) && names == old(names) && databases == old(databases)
      ensures dbName.Some? && dbName.value in old(databases) ==>
                names == old(names) && databases == old(databases)
      ensures dbName.Some? && dbName.value !in old(databases) ==>
                names == old(names) + [dbName.value] && dbName.value in databases
                && fresh(databases[dbName.value])
                && databases == old(databases)[dbName.value := databases[dbName.value]]
      ensures dbName.Some? ==>
                var db := databases[dbName.value];
                var before := if dbName.value in old(databases) then old(databases[dbName.value].State()) else DbState(None, None);
                var (err, after) := OpenStep(before, provider, connectionString, connects);
                db.State() == after
                && (err.Some? ==> r == Err(err.value))
                && (err.None? ==> r == Ok(db))
      ensures forall k :: k in old(databases) && Some(k) != dbName ==> databases[k].State() == old(databases[k].State())
    {
      if dbName.None? {
        return Err(NullKey);
      }
      var db := Register(dbName.value);
      var err := db.Configure(provider, connectionString, connects);
      r := if err.Some? then Err(err.value) else Ok(db);
    }

    /** `DB.ListDatabases()`: the dictionary enumerated once, in insertion order. */
    method ListDatabases() returns (r: Result<string>)
      requires Valid()
      ensures r == Listing(Entries())
    {
      r := ListEntries(Entries());
    }
  }

  /** The `StringBuilder` loop of `ListDatabases` over the enumerated (name, DB) pairs. */
  method ListEntries(entries: seq<(string, DbState)>) returns (r: Result<string>)
    ensures r == Listing(entries)
  {
    if |entries| == 0 {
      return Ok(Header(0));
    }
    var lines := "";
    var i := 0;
    while i < |entries|
      invariant 0 <= i <= |entries|
      invariant EntryLines(entries[..i]) == Ok(lines)
    {
      var (name, db) := entries[i];
      EntryLinesStep(entries, i);
      if db.provider.None? {
        EntryLinesErrStays(entries, i + 1);
        return Err(NullReference);
      }
      var cs := if db.connectionString.Some? then db.connectionString.value else "";
      lines := lines + ("DBName:" + name + "  Provider:" + db.provider.value.typeName + "  ConnectionString:" + cs + NewLine);
      i := i + 1;
    }
    assert entries[..i] == entries;
    r := Ok(Header(|entries|) + lines + Separator + NewLine);
  }

  lemma EntryLinesStep(entries: seq<(string, DbState)>, i: nat)
    requires i < |entries| && EntryLines(entries[..i]).Ok?
    ensures EntryLine(entries[i].0, entries[i].1).Err? ==> EntryLines(entries[..i + 1]) == Err(NullReference)
    ensures EntryLine(entries[i].0, entries[i].1).Ok? ==>
              EntryLines(entries[..i + 1]) == Ok(EntryLines(entries[..i]).value + EntryLine(entries[i].0, entries[i].1).value)
  {
    assert entries[..i + 1][..i] == entries[..i];
  }

  lemma {:induction false} EntryLinesErrStays(entries: seq<(string, DbState)>, n: nat)
    requires n <= |entries| && EntryLines(entries[..n]).Err?
    ensures EntryLines(entries) == EntryLines(entries[..n])
    decreases |entries| - n
  {
    if n < |entries| {
      assert entries[..n + 1][..n] == entries[..n];
      EntryLinesErrStays(entries, n + 1);
    } else {
      assert entries[..n] == entries;
    }
  }

  /** A failed first `Open` of a name with a null provider still registers the name, and the
      listing then throws: the registered object never got a provider. */
  lemma FailedOpenPoisonsListing(entries: seq<(string, DbState)>, name: string, connectionString: Option<string>, connects: Connects)
    ensures OpenStep(DbState(None, None), None, connectionString, connects).0 == Some(NullArgument("Provider"))
    ensures Listing(entries + [(name, OpenStep(DbState(None, None), None, connectionString, connects).1)]).Err?
  {
    var after := OpenStep(DbState(None, None), None, connectionString, connects).1;
    var es := entries + [(name, after)];
    EntryLinesFailIff(es);
    assert es[|entries|].1.provider.None?;
  }
}
