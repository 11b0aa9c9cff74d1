/**
 * The registry that maps a database provider name to the statement builder used for it. Names
 * are compared ordinally; adding a name twice is an error.
 */
module QueryBuilderRegistry {
  import opened Wrappers
  import opened ProviderNames

  /** The builder implementations a scheme can name; the library ships one. */
  datatype QueryBuilderType = SqlBulkQueryBuilderType

  datatype QueryBuilderScheme = QueryBuilderScheme(name: string, queryBuilderType: QueryBuilderType)

  /** A builder handed out by the registry: its type, and whether the service container supplied it. */
  datatype Instance = Instance(builderType: QueryBuilderType, fromContainer: bool)

  /** The schemes the constructor registers: the five known providers, all on `SqlBulkQueryBuilder`. */
  function InitialSchemes(): map<string, QueryBuilderScheme>
  {
    map[Sqlite := QueryBuilderScheme(Sqlite, SqlBulkQueryBuilderType),
        Npgsql := QueryBuilderScheme(Npgsql, SqlBulkQueryBuilderType),
        MySqlOracle := QueryBuilderScheme(MySqlOracle, SqlBulkQueryBuilderType),
        SqlServer := QueryBuilderScheme(SqlServer, SqlBulkQueryBuilderType),
        Pomelo := QueryBuilderScheme(Pomelo, SqlBulkQueryBuilderType)]
  }

  class QueryBuilderProvider {
    /** `_schemes`, keyed by scheme name. */
    var schemes: map<string, QueryBuilderScheme>

    /** Every entry is filed under its own scheme's name. */
    predicate Valid()
      reads this
    {
      forall n :: n in schemes ==> schemes[n].name == n
    }

    /** Registers the five known providers, in order; none of them collides. */
    constructor ()
      ensures Valid() && schemes == InitialSchemes()
    {
      schemes := map[];
      new;
      KnownProvidersDistinct();
      var _ := AddQueryBuilderScheme(QueryBuilderScheme(Sqlite, SqlBulkQueryBuilderType));
      var _ := AddQueryBuilderScheme(QueryBuilderScheme(Npgsql, SqlBulkQueryBuilderType));
      var _ := AddQueryBuilderScheme(QueryBuilderScheme(MySqlOracle, SqlBulkQueryBuilderType));
      var _ := AddQueryBuilderScheme(QueryBuilderScheme(SqlServer, SqlBulkQueryBuilderType));
      var _ := AddQueryBuilderScheme(QueryBuilderScheme(Pomelo, SqlBulkQueryBuilderType));
    }

    /** `AddQueryBuilderScheme`: a name already present throws and changes nothing; a fresh name is added. */
    method AddQueryBuilderScheme(scheme: QueryBuilderScheme) returns (r: Outcome)
      requires Valid()
      modifies this
      ensures Valid()
      ensures scheme.name in old(schemes) ==> r == Fail(InvalidOperationException) && schemes == old(schemes)
      ensures scheme.name !in old(schemes) ==> r == Pass && schemes == old(schemes)[scheme.name := scheme]
    {
      if scheme.name in schemes {
        return Fail(InvalidOperationException);
      }
      schemes := schemes[scheme.name := scheme];
      r := Pass;
    }

    /** `GetSchemeAsync`: the scheme registered under `name`, or null. */
    function GetSchemeAsync(name: string): (r: Option<QueryBuilderScheme>)
      requires Valid()
      reads this
      ensures r.None? <==> name !in schemes
      ensures r.Some? ==> r.value.name == name
    {
      Lookup(schemes, name)
    }

    /**
     * The synchronous builder lookup the bulk extensions call: the registered builder type for
     * `name`, or null when the name is not registered.
     */
    function GetQueryBuilder(name: string): (r: Option<QueryBuilderType>)
      reads this
      ensures r.None? <==> name !in schemes
      ensures r.Some? ==> r.value == schemes[name].queryBuilderType
    {
      if name in schemes then Some(schemes[name].queryBuilderType) else None
    }

    /**
     * `GetQueryBuilderAsync`: an unknown name throws; otherwise the registered builder type,
     * taken from the container when `registered` holds it and constructed otherwise.
     */
    method GetQueryBuilderAsync(registered: set<QueryBuilderType>, name: string) returns (r: Result<Instance>)
      requires Valid()
      ensures name !in schemes ==> r == Err(ArgumentException)
      ensures name in schemes ==>
                var b := schemes[name].queryBuilderType; r == Ok(Instance(b, b in registered))
    {
      var scheme := GetSchemeAsync(name);
      if scheme.None? {
        return Err(ArgumentException);
      }
      var b := scheme.value.queryBuilderType;
      r := Ok(Instance(b, b in registered));
    }

    /** `CreateQueryBuilderAsync`: an unknown name throws; otherwise a newly constructed builder of the registered type. */
    method CreateQueryBuilderAsync(name: string) returns (r: Result<Instance>)
      requires Valid()
      ensures name !in schemes ==> r == Err(ArgumentException)
      ensures name in schemes ==> r == Ok(Instance(schemes[name].queryBuilderType, false))
    {
      var scheme := GetSchemeAsync(name);
      if scheme.None? {
        return Err(ArgumentException);
      }
      r := Ok(Instance(scheme.value.queryBuilderType, false));
    }
  }

  /**
   * After construction exactly the five known names are registered, each on `SqlBulkQueryBuilder`;
   * any other name is unknown.
   */
  lemma InitialRegistry(name: string)
    ensures |InitialSchemes().Keys| == 5
    ensures Lookup(InitialSchemes(), name)
            == if name in KnownProviders then Some(QueryBuilderScheme(name, SqlBulkQueryBuilderType)) else None
  {
    KnownProvidersDistinct();
    assert InitialSchemes().Keys == {Sqlite, Npgsql, MySqlOracle, SqlServer, Pomelo};
  }
}
