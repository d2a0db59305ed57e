/** JSON values; K names the members of objects. */
module Json {
  datatype Json<K(==)> =
    | Null
    | Boolean(truth: bool)
    | Number(number: int)
    | Text(text: string)
    | Array(items: seq<Json<K>>)
    | Object(members: map<K, Json<K>>)

  /** A drive letter, a colon and a slash of either kind. */
  predicate IsAbsoluteWindowsPath(text: string) {
    |text| >= 3 && ('A' <= text[0] <= 'Z' || 'a' <= text[0] <= 'z') && text[1] == ':' && text[2] in {'\\', '/'}
  }

  /** Some text value, at any depth, is an absolute Windows path; member names are not looked at. */
  predicate ContainsAbsolutePath<K(==)>(value: Json<K>) {
    match value
    case Text(text) => IsAbsoluteWindowsPath(text)
    case Array(items) => exists i :: 0 <= i < |items| && ContainsAbsolutePath(items[i])
    case Object(members) => exists k | k in members :: ContainsAbsolutePath(members[k])
    case _ => false
  }
}
