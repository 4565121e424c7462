/**
 * JooqPersistService: the unit-of-work lifecycle. While work is active the
 * service holds a query factory (jOOQ's DSLContext) and the connection it
 * acquired; `begin` binds both, `end` closes the connection and unbinds
 * both. The source keeps the two bindings in thread-locals; here one
 * execution context is modelled, so they are plain fields.
 */
module PersistService {
  import opened Wrappers
  import opened Exceptions
  import opened Jdbc

  /** Opaque handles for a SQL dialect, jOOQ Settings and a full jOOQ Configuration. */
  type Dialect = nat
  type SettingsId = nat
  type ConfigId = nat

  /** The query factory, tagged with the way it was built. */
  datatype Factory =
    | FromConfiguration(configuration: ConfigId)                      // DSL.using(configuration)
    | FromConnection(dialect: Dialect, settings: Option<SettingsId>)  // DSL.using(conn, dialect[, settings])

  /** The factory-choice branch of begin. */
  function ChooseFactory(configuration: Option<ConfigId>, settings: Option<SettingsId>, dialect: Dialect): Factory {
    if configuration.Some? then FromConfiguration(configuration.value)
    else FromConnection(dialect, settings)
  }

  /**
   * A supplied configuration wins and any settings are ignored; without one
   * the factory is built on the acquired connection with the dialect, plus
   * the settings when they are present.
   */
  lemma FactoryChoice(configuration: Option<ConfigId>, settings: Option<SettingsId>, dialect: Dialect)
    ensures configuration.Some? ==>
      ChooseFactory(configuration, settings, dialect) == ChooseFactory(configuration, None, dialect)
      == FromConfiguration(configuration.value)
    ensures configuration.None? && settings.None? ==>
      ChooseFactory(configuration, settings, dialect) == FromConnection(dialect, None)
    ensures configuration.None? && settings.Some? ==>
      ChooseFactory(configuration, settings, dialect) == FromConnection(dialect, settings)
  {
  }

  class JooqPersistService {
    const dialect: Dialect
    const settings: Option<SettingsId>
    const configuration: Option<ConfigId>
    /** threadFactory: the bound query factory, None when no work is active. */
    var factory: Option<Factory>
    /** threadConnection: the bound connection, null when no work is active. */
    var conn: Connection?

    /** Both bindings are set together or not at all. */
    ghost predicate Valid()
      reads this
    {
      factory.Some? <==> conn != null
    }

    constructor (dialect: Dialect, settings: Option<SettingsId>, configuration: Option<ConfigId>)
      ensures Valid() && factory == None && conn == null
      ensures this.dialect == dialect && this.settings == settings && this.configuration == configuration
    {
      this.dialect := dialect;
      this.settings := settings;
      this.configuration := configuration;
      factory := None;
      conn := null;
    }

    predicate IsWorking()
      reads this
    {
      factory.Some?
    }

    function GetConnectionWrapper(): Connection?
      reads this
    {
      conn
    }

    /** isWorking() is true exactly when getConnectionWrapper() returns a connection. */
    lemma WorkingIffConnectionBound()
      requires Valid()
      ensures IsWorking() <==> GetConnectionWrapper() != null
      ensures !IsWorking() ==> GetConnectionWrapper() == null
    {
    }

    /**
     * Fails while work is active, and when the data source cannot supply a
     * connection (`source == null`); otherwise binds the connection and a
     * newly chosen factory.
     */
    method Begin(source: Connection?) returns (r: Outcome<()>)
      requires Valid()
      modifies this
      ensures Valid()
      ensures old(IsWorking()) ==> r == Abrupt(IllegalState) && factory == old(factory) && conn == old(conn)
      ensures !old(IsWorking()) && source == null ==> r == Abrupt(AcquireFailed) && factory == None && conn == null
      ensures !old(IsWorking()) && source != null ==>
        && r == Normal(())
        && conn == source
        && factory == Some(ChooseFactory(configuration, settings, dialect))
    {
      if factory.Some? {
        return Abrupt(IllegalState);
      }
      if source == null {
        return Abrupt(AcquireFailed);
      }
      var f := ChooseFactory(configuration, settings, dialect);
      conn := source;
      factory := Some(f);
      r := Normal(());
    }

    /**
     * A no-op when no work is active. Otherwise closes the connection once;
     * if that fails the bindings stay, else both are removed.
     */
    method End(closeFails: bool) returns (r: Outcome<()>)
      requires Valid()
      modifies this, conn
      ensures Valid()
      ensures !old(IsWorking()) ==> r == Normal(()) && factory == old(factory) && conn == old(conn)
      ensures old(IsWorking()) ==>
        && old(conn).history == old(conn.history) + [Close(!closeFails)]
        && old(conn).autoCommit == old(conn.autoCommit)
      ensures old(IsWorking()) && closeFails ==>
        r == Abrupt(CloseFailed) && factory == old(factory) && conn == old(conn)
      ensures old(IsWorking()) && !closeFails ==> r == Normal(()) && factory == None && conn == null
    {
      var jooqFactory := factory;
      var c := conn;
      if jooqFactory.None? {
        return Normal(());
      }
      var closed := c.Close(closeFails);
      if closed.Abrupt? {
        return closed;
      }
      factory := None;
      conn := null;
      r := Normal(());
    }

    /** Begins work implicitly when none is active, then returns the bound factory. */
    method Get(source: Connection?) returns (r: Outcome<Factory>)
      requires Valid()
      modifies this
      ensures Valid()
      ensures old(IsWorking()) ==> r == Normal(old(factory).value) && factory == old(factory) && conn == old(conn)
      ensures !old(IsWorking()) && source == null ==> r == Abrupt(AcquireFailed) && factory == None && conn == null
      ensures !old(IsWorking()) && source != null ==>
        && r == Normal(ChooseFactory(configuration, settings, dialect))
        && factory == Some(r.value)
        && conn == source
    {
      if !IsWorking() {
        var begun := Begin(source);
        if begun.Abrupt? {
          return Abrupt(begun.thrown);
        }
      }
      r := Normal(factory.value);
    }
  }
}
