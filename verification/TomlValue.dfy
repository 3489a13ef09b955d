/** TOML documents as value trees. */
module TomlValue {
  import opened Basics

  /** Integers, floats, booleans and dates. */
  type Scalar(==, !new)

  datatype Toml =
    | Text(text: string)
    | Plain(scalar: Scalar)
    | Array(items: seq<Toml>)
    | Table(entries: map<string, Toml>)

  /** The entry of a table; nothing else has entries. */
  function Entry(value: Toml, key: string): Option<Toml> {
    if value.Table? && key in value.entries then Some(value.entries[key]) else None
  }

  /** The value at a path of table keys. */
  function Lookup(value: Toml, path: seq<string>): Option<Toml>
    decreases |path|
  {
    if path == [] then Some(value)
    else
      var entry := Entry(value, path[0]);
      if entry.None? then None else Lookup(entry.value, path[1..])
  }
}
