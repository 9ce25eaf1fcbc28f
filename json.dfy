/** The part of Jackson's `JsonNode` tree the service reads: node kinds,
    `path(String)`, `get(int)`, `isArray`, `isMissingNode` and `asText`.
    Turning text into a tree (`ObjectMapper.readTree`) is not modelled here;
    the service receives it as a parameter. */
module Json {
  import opened Wrappers

  /** A tree node. `Missing` is Jackson's MissingNode, which `path` returns
      for an absent key; `Num` carries the text Jackson renders for the
      number; an object maps each field name to its value. */
  datatype Node =
    | Missing
    | Null
    | Bool(b: bool)
    | Num(text: string)
    | Str(s: string)
    | Arr(items: seq<Node>)
    | Obj(fields: map<string, Node>)

  /** `node.path(key)`: the field's value on an object that has it, and the
      missing node everywhere else (absent field, array, scalar, missing). */
  function Path(node: Node, key: string): (r: Node)
    ensures node.Obj? && key in node.fields ==> r == node.fields[key]
    ensures !node.Obj? || key !in node.fields ==> r.Missing?
  {
    if node.Obj? && key in node.fields then node.fields[key] else Missing
  }

  /** `node.get(0)`: the first element of a non-empty array, Java `null`
      (here `None`) for anything else. */
  function First(node: Node): (r: Option<Node>)
    ensures r.Some? <==> node.Arr? && |node.items| > 0
    ensures r.Some? ==> r.value == node.items[0]
  {
    if node.Arr? && node.items != [] then Some(node.items[0]) else None
  }

  /** `node.asText()`: the string of a text node, the rendering of a number
      or boolean, "null" for the null node and "" for containers and the
      missing node. */
  function AsText(node: Node): (r: string)
    ensures node.Str? ==> r == node.s
    ensures node.Num? ==> r == node.text
    ensures node.Bool? ==> r == (if node.b then "true" else "false")
    ensures node.Null? ==> r == "null"
    ensures node.Missing? || node.Arr? || node.Obj? ==> r == ""
  {
    match node
    case Str(s) => s
    case Num(text) => text
    case Bool(b) => if b then "true" else "false"
    case Null => "null"
    case Missing => ""
    case Arr(_) => ""
    case Obj(_) => ""
  }
}
