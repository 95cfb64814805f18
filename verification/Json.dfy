/**
 JSON documents as Go holds them in `map[string]any`. `Num` is a decoded JSON number
 (float64 or json.Number); `GoInt` is a native integer the server itself put in a map.
 */
module Json {
  import opened Text

  datatype Json =
    | Null
    | Bool(b: bool)
    | Num(n: real)
    | GoInt(i: int)
    | Str(s: string)
    | Arr(elems: seq<Json>)
    | Obj(fields: Object)

  type Object = map<string, Json>

  function Strs(items: seq<string>): (r: seq<Json>)
    ensures |r| == |items|
    ensures forall i :: 0 <= i < |items| ==> r[i] == Str(items[i])
  {
    seq(|items|, i requires 0 <= i < |items| => Str(items[i]))
  }

  /** The trimmed text under a key, blank when there is none. */
  function StringField(m: Object, k: string): (r: string) {
    if k in m && m[k].Str? then Trim(m[k].s) else ""
  }
}
