/** The database provider names both registries start with, and the ordinal lookup they share. */
module ProviderNames {
  import opened Wrappers

  const Sqlite := "Microsoft.EntityFrameworkCore.Sqlite"
  const Npgsql := "Npgsql.EntityFrameworkCore.PostgreSQL"
  const MySqlOracle := "MySql.EntityFrameworkCore"
  const SqlServer := "Microsoft.EntityFrameworkCore.SqlServer"
  const Pomelo := "Pomelo.EntityFrameworkCore.MySql"

  /** The five names, in registration order. */
  const KnownProviders: seq<string> := [Sqlite, Npgsql, MySqlOracle, SqlServer, Pomelo]

  /** `TryGetValue` on an ordinal (case-sensitive) dictionary: the entry, or null. */
  function Lookup<S>(schemes: map<string, S>, name: string): (r: Option<S>)
    ensures r.None? <==> name !in schemes
    ensures r.Some? ==> name in schemes && r.value == schemes[name]
  {
    if name in schemes then Some(schemes[name]) else None
  }

  /** Adding a fresh name: a later lookup of that name finds the new entry, every other lookup is unchanged. */
  lemma LookupAfterAdd<S>(schemes: map<string, S>, key: string, scheme: S, name: string)
    requires key !in schemes
    ensures Lookup(schemes[key := scheme], name) == if name == key then Some(scheme) else Lookup(schemes, name)
  {
  }

  /** The five names are pairwise different, so registering them one after another never collides. */
  lemma KnownProvidersDistinct()
    ensures forall i, j :: 0 <= i < j < |KnownProviders| ==> KnownProviders[i] != KnownProviders[j]
  {
    assert Sqlite[10] != Npgsql[10] && Sqlite[10] != MySqlOracle[10] && Sqlite[10] != Pomelo[10];
    assert Sqlite[33] != SqlServer[33];
    assert Npgsql[0] != MySqlOracle[0] && Npgsql[0] != SqlServer[0] && Npgsql[0] != Pomelo[0];
    assert MySqlOracle[1] != SqlServer[1] && MySqlOracle[0] != Pomelo[0];
    assert SqlServer[0] != Pomelo[0];
  }
}
