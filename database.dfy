/**
 * `context.Database` as the library uses it: it runs raw SQL with positional parameters and
 * hands back what the engine reports. The engine is not modelled; its answers are fixed when the
 * database is created, and the database keeps the statements it ran, in order.
 */
module DatabaseFacade {
  import opened Wrappers
  import opened EntityModel

  /** A statement as sent: its text and its positional parameters. */
  datatype Statement = Statement(text: string, parameters: seq<Value>)

  /** What a sequence of database calls ends with, and the statements it ran on the way. */
  datatype Run<T> = Run(result: Result<T>, log: seq<Statement>)

  class Database {
    /** The statements run so far, oldest first. */
    var log: seq<Statement>
    /** The affected-row count the engine reports for a statement (`ExecuteSqlRaw`). */
    const affected: Statement -> int
    /** The rows a statement returns (`SqlQueryRaw<T>`). */
    const returned: Statement -> seq<Entity>

    constructor (affected: Statement -> int, returned: Statement -> seq<Entity>)
      ensures log == [] && this.affected == affected && this.returned == returned
    {
      log := [];
      this.affected := affected;
      this.returned := returned;
    }

    /** `ExecuteSqlRaw` / `ExecuteSqlRawAsync`: runs the statement and reports the affected rows. */
    method ExecuteSqlRaw(text: string, parameters: seq<Value>) returns (n: int)
      modifies this
      ensures log == old(log) + [Statement(text, parameters)]
      ensures n == affected(Statement(text, parameters))
    {
      log := log + [Statement(text, parameters)];
      n := affected(Statement(text, parameters));
    }

    /** `SqlQueryRaw<T>(...).ToArray()`: runs the statement and materialises the rows it returns. */
    method SqlQueryRaw(text: string, parameters: seq<Value>) returns (rows: seq<Entity>)
      modifies this
      ensures log == old(log) + [Statement(text, parameters)]
      ensures rows == returned(Statement(text, parameters))
    {
      log := log + [Statement(text, parameters)];
      rows := returned(Statement(text, parameters));
    }
  }
}
