/**
 * The entity-framework metadata and objects the bulk builders read, replaced by plain values:
 * an entity type is its table, its declared properties in declaration order, the names of its
 * CLR properties and its (first) primary-key property; an entity is the values of its CLR
 * properties plus the names of the properties change tracking reports as modified.
 */
module EntityModel {
  import opened SqlText

  /** A boxed property value. Int32 and Int64 are kept apart because `Equals(0)` tells them apart. */
  datatype Value =
    | VNull
    | VInt32(i: int)
    | VInt64(l: int)
    | VString(s: string)
    | VOther(typeName: string, text: string)   // Guid, decimal, DateTime, ...: its ToString()

  /** A declared (mapped) property: CLR name, mapped column name, and whether the store generates it on add. */
  datatype Property = Property(name: string, columnName: string, generatedOnAdd: bool)

  datatype EntityType = EntityType(
    tableName: string,
    properties: seq<Property>,     // GetDeclaredProperties(), in declaration order
    clrProperties: set<string>,    // names `Type.GetProperty` finds
    primaryKey: Property)          // FindPrimaryKey().Properties[0]

  /** One object: its property values, and which properties its change-tracking entry marks modified. */
  datatype Entity = Entity(values: map<string, Value>, modified: set<string>)

  /** `PropertyInfo.GetValue`: an unset property reads as null. */
  function ValueOf(e: Entity, name: string): Value
  {
    if name in e.values then e.values[name] else VNull
  }

  /** `ToString()` of a value, as string interpolation renders it (null renders as ""). */
  function Render(v: Value): string
  {
    match v
    case VNull => ""
    case VInt32(i) => IntToString(i)
    case VInt64(l) => IntToString(l)
    case VString(s) => s
    case VOther(_, text) => text
  }

  /** The names of a property list, in order. */
  function Names(ps: seq<Property>): (r: seq<string>)
    ensures |r| == |ps|
    ensures forall i :: 0 <= i < |ps| ==> r[i] == ps[i].name
  {
    if ps == [] then [] else Names(ps[..|ps| - 1]) + [ps[|ps| - 1].name]
  }

  /** The mapped column names of a property list, in order. */
  function ColumnNames(ps: seq<Property>): (r: seq<string>)
    ensures |r| == |ps|
    ensures forall i :: 0 <= i < |ps| ==> r[i] == ps[i].columnName
  {
    if ps == [] then [] else ColumnNames(ps[..|ps| - 1]) + [ps[|ps| - 1].columnName]
  }

  /** Every declared property can be read through reflection (none is a shadow property). */
  predicate Readable(t: EntityType)
  {
    forall i :: 0 <= i < |t.properties| ==> t.properties[i].name in t.clrProperties
  }
}
