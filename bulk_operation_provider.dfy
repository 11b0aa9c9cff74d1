/**
 * The registry that maps a database provider name to the bulk operation service used for it:
 * the Sqlite provider gets the Sqlite service, the other known providers the relational one.
 */
module BulkOperationRegistry {
  import opened Wrappers
  import opened ProviderNames

  /** The service implementations a scheme can name. */
  datatype ServiceType = SqliteBulkOperationServiceType | RelationalBulkOperationServiceType

  datatype BulkOperationScheme = BulkOperationScheme(name: string, serviceType: ServiceType)

  /** A service handed out by the registry: its type, and whether the service container supplied it. */
  datatype Instance = Instance(serviceType: ServiceType, fromContainer: bool)

  /** The schemes the constructor registers. */
  function InitialSchemes(): map<string, BulkOperationScheme>
  {
    map[Sqlite := BulkOperationScheme(Sqlite, SqliteBulkOperationServiceType),
        Npgsql := BulkOperationScheme(Npgsql, RelationalBulkOperationServiceType),
        MySqlOracle := BulkOperationScheme(MySqlOracle, RelationalBulkOperationServiceType),
        SqlServer := BulkOperationScheme(SqlServer, RelationalBulkOperationServiceType),
        Pomelo := BulkOperationScheme(Pomelo, RelationalBulkOperationServiceType)]
  }

  class BulkOperationProvider {
    /** `_schemes`, keyed by scheme name. */
    var schemes: map<string, BulkOperationScheme>
    /** The service types the injected service provider can supply. */
    const registered: set<ServiceType>

    /** Every entry is filed under its own scheme's name. */
    predicate Valid()
      reads this
    {
      forall n :: n in schemes ==> schemes[n].name == n
    }

    /** Registers the five known providers, in order, and keeps the service provider. */
    constructor (registered: set<ServiceType>)
      ensures Valid() && schemes == InitialSchemes() && this.registered == registered
    {
      schemes := map[];
      this.registered := registered;
      new;
      KnownProvidersDistinct();
      var _ := AddBulkOperationScheme(BulkOperationScheme(Sqlite, SqliteBulkOperationServiceType));
      var _ := AddBulkOperationScheme(BulkOperationScheme(Npgsql, RelationalBulkOperationServiceType));
      var _ := AddBulkOperationScheme(BulkOperationScheme(MySqlOracle, RelationalBulkOperationServiceType));
      var _ := AddBulkOperationScheme(BulkOperationScheme(SqlServer, RelationalBulkOperationServiceType));
      var _ := AddBulkOperationScheme(BulkOperationScheme(Pomelo, RelationalBulkOperationServiceType));
    }

    /** `AddBulkOperationScheme`: a name already present throws and changes nothing; a fresh name is added. */
    method AddBulkOperationScheme(scheme: BulkOperationScheme) returns (r: Outcome)
      requires Valid()
      modifies this
      ensures Valid()
      ensures scheme.name in old(schemes) ==> r == Fail(InvalidOperationException) && schemes == old(schemes)
      ensures scheme.name !in old(schemes) ==> r == Pass && schemes == old(schemes)[scheme.name := scheme]
    {
      if scheme.name in schemes {
        return Fail(InvalidOperationException);
      }
      schemes := schemes[scheme.name := scheme];
      r := Pass;
    }

    /** `GetScheme` / `GetSchemeAsync`: the scheme registered under `name`, or null. */
    function GetScheme(name: string): (r: Option<BulkOperationScheme>)
      requires Valid()
      reads this
      ensures r.None? <==> name !in schemes
      ensures r.Some? ==> r.value.name == name
    {
      Lookup(schemes, name)
    }

    /**
     * `GetBulkOperationService(Async)`: an unknown name throws; otherwise the registered service
     * type, taken from the container when it holds that type and constructed otherwise.
     */
    method GetBulkOperationService(name: string) returns (r: Result<Instance>)
      requires Valid()
      ensures name !in schemes ==> r == Err(ArgumentException)
      ensures name in schemes ==>
                var s := schemes[name].serviceType; r == Ok(Instance(s, s in registered))
    {
      var scheme := GetScheme(name);
      if scheme.None? {
        return Err(ArgumentException);
      }
      var s := scheme.value.serviceType;
      r := Ok(Instance(s, s in registered));
    }

    /** `CreateBulkOperationService(Async)`: an unknown name throws; otherwise a newly constructed service of the registered type. */
    method CreateBulkOperationService(name: string) returns (r: Result<Instance>)
      requires Valid()
      ensures name !in schemes ==> r == Err(ArgumentException)
      ensures name in schemes ==> r == Ok(Instance(schemes[name].serviceType, false))
    {
      var scheme := GetScheme(name);
      if scheme.None? {
        return Err(ArgumentException);
      }
      r := Ok(Instance(scheme.value.serviceType, false));
    }
  }

  /**
   * After construction exactly the five known names are registered: the Sqlite provider on the
   * Sqlite service, the other four on the relational service; any other name is unknown.
   */
  lemma InitialRegistry(name: string)
    ensures |InitialSchemes().Keys| == 5
    ensures Lookup(InitialSchemes(), name)
            == if name == Sqlite then Some(BulkOperationScheme(name, SqliteBulkOperationServiceType))
               else if name in KnownProviders then Some(BulkOperationScheme(name, RelationalBulkOperationServiceType))
               else None
  {
    KnownProvidersDistinct();
    assert InitialSchemes().Keys == {Sqlite, Npgsql, MySqlOracle, SqlServer, Pomelo};
  }
}
