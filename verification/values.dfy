/**
 * The protocol's JSON-like argument values and the type-directed way the
 * tool handlers pull typed arguments out of them.
 */
module Values {
  import opened Common

  /** One argument value, as the protocol tags it. */
  datatype Value =
    | Null
    | Bool(b: bool)
    | Int(i: int)
    | Double(d: real)
    | String(s: string)
    | Data(mimeType: Option<string>, bytes: seq<bv8>)
    | Array(items: seq<Value>)
    | Object(fields: map<string, Value>)

  /** A call's arguments: a map from names to values, or none at all. */
  type Arguments = Option<map<string, Value>>

  /** `arguments?[key]`: absent when there is no map or the key is not in it. */
  function Lookup(args: Arguments, key: string): (r: Option<Value>)
    ensures r.Some? <==> args.Some? && key in args.value
    ensures r.Some? ==> r.value == args.value[key]
  {
    match args
    case None => None
    case Some(m) => if key in m then Some(m[key]) else None
  }

  /** `if case .string(let s) = v`: the text of a string value; any other tag counts as absent. */
  function AsString(v: Option<Value>): (r: Option<string>)
    ensures r.Some? <==> v.Some? && v.value.String?
    ensures r.Some? ==> r.value == v.value.s
  {
    match v
    case Some(String(s)) => Some(s)
    case _ => None
  }

  /** `if case .int(let n) = v`: the number of an integer value; any other tag counts as absent. */
  function AsInt(v: Option<Value>): (r: Option<int>)
    ensures r.Some? <==> v.Some? && v.value.Int?
    ensures r.Some? ==> r.value == v.value.i
  {
    match v
    case Some(Int(n)) => Some(n)
    case _ => None
  }

  /** A string argument: present only when the key maps to a `.string` value. */
  function StringArg(args: Arguments, key: string): (r: Option<string>)
    ensures r.Some? <==> args.Some? && key in args.value && args.value[key].String?
    ensures r.Some? ==> r.value == args.value[key].s
  {
    AsString(Lookup(args, key))
  }

  /** An integer argument: present only when the key maps to an `.int` value. */
  function IntArg(args: Arguments, key: string): (r: Option<int>)
    ensures r.Some? <==> args.Some? && key in args.value && args.value[key].Int?
    ensures r.Some? ==> r.value == args.value[key].i
  {
    AsInt(Lookup(args, key))
  }

  /** A missing argument map reads exactly like an empty one. */
  lemma NoArgumentsIsEmptyMap(key: string)
    ensures Lookup(None, key) == Lookup(Some(map[]), key)
    ensures StringArg(None, key) == None && IntArg(None, key) == None
  {
  }

  /** A string sent where an integer is expected, or the reverse, is simply not there. */
  lemma WrongTagIsAbsent(args: Arguments, key: string)
    requires Lookup(args, key).Some?
    ensures !Lookup(args, key).value.String? ==> StringArg(args, key).None?
    ensures !Lookup(args, key).value.Int? ==> IntArg(args, key).None?
    ensures StringArg(args, key).None? || IntArg(args, key).None?
  {
  }
}
