/**
 Decoded JSON values and KVRouter's path walk, server/chatbothub/filter.go:341-367.
 */
module JsonPath {
  import opened Wrappers
  import opened Strings

  /** A decoded JSON value; numbers, booleans, lists and null are Other. */
  datatype Value = Text(text: string) | Obj(fields: map<string, Value>) | Other(raw: string)

  /** What decoding a string into a Go map gives: an error, the nil map of "null", or a map. */
  datatype Parsed = Malformed | Null | Object(fields: map<string, Value>)

  /** The value reached by following the path, if every step leads into an object. */
  function At(v: Value, path: seq<string>): Option<Value>
    decreases |path|
  {
    if path == [] then Some(v)
    else if v.Obj? && path[0] in v.fields then At(v.fields[path[0]], path[1..])
    else None
  }

  /** findByJsonPath: None stands for Go's nil. */
  method FindByJsonPath(body: map<string, Value>, name: string) returns (r: Option<Value>)
    ensures r == At(Obj(body), Split(name, "."))
  {
    var ks := Split(name, ".");
    var step := body;
    for kn := 0 to |ks|
      invariant At(Obj(body), ks) == At(Obj(step), ks[kn..])
    {
      assert ks[kn..][1..] == ks[kn + 1..];
      if ks[kn] in step {
        var part := step[ks[kn]];
        if part.Obj? {
          step := part.fields;
        } else if kn == |ks| - 1 {
          return Some(part);
        } else {
          return None;
        }
      } else {
        return None;
      }
    }
    return Some(Obj(step));
  }

  /** The string a KVRouter matches for a key: the value found if it is text, else "". */
  function TextAt(body: map<string, Value>, name: string): string {
    match At(Obj(body), Split(name, "."))
    case Some(Text(t)) => t
    case _ => ""
  }

  /** vs are the values met on the path: each leads to the next by one of its fields. */
  ghost predicate Chain(v: Value, path: seq<string>, vs: seq<Value>) {
    && |vs| == |path| + 1 && vs[0] == v
    && forall i | 0 <= i < |path| :: vs[i].Obj? && path[i] in vs[i].fields && vs[i + 1] == vs[i].fields[path[i]]
  }

  ghost predicate Reaches(v: Value, path: seq<string>, r: Value) {
    exists vs: seq<Value> :: Chain(v, path, vs) && vs[|path|] == r
  }

  /** A value is found exactly if the fields of the path lead to it one by one. */
  lemma {:induction false} AtIff(v: Value, path: seq<string>, r: Value)
    ensures At(v, path) == Some(r) <==> Reaches(v, path, r)
    decreases |path|
  {
    if path == [] {
      assert Chain(v, path, [v]);
    } else if v.Obj? && path[0] in v.fields {
      var next := v.fields[path[0]];
      AtIff(next, path[1..], r);
      if vs :| Chain(next, path[1..], vs) && vs[|path| - 1] == r {
        ChainCons(v, path, vs);
        assert ([v] + vs)[|path|] == r;
      }
      forall vs | Chain(v, path, vs) && vs[|path|] == r ensures Chain(next, path[1..], vs[1..]) {
        ChainTail(v, path, vs);
      }
    }
  }

  lemma ChainCons(v: Value, path: seq<string>, vs: seq<Value>)
    requires path != [] && v.Obj? && path[0] in v.fields && Chain(v.fields[path[0]], path[1..], vs)
    ensures Chain(v, path, [v] + vs)
  {
    var all := [v] + vs;
    forall i | 0 <= i < |path|
      ensures all[i].Obj? && path[i] in all[i].fields && all[i + 1] == all[i].fields[path[i]]
    {
      if i > 0 { assert path[i] == path[1..][i - 1] && all[i] == vs[i - 1] && all[i + 1] == vs[i]; }
    }
  }

  lemma ChainTail(v: Value, path: seq<string>, vs: seq<Value>)
    requires path != [] && Chain(v, path, vs)
    ensures v.Obj? && path[0] in v.fields && Chain(v.fields[path[0]], path[1..], vs[1..])
  {
    assert vs[0 + 1] == vs[0].fields[path[0]];
    forall i | 0 <= i < |path| - 1
      ensures var ws := vs[1..]; ws[i].Obj? && path[1..][i] in ws[i].fields && ws[i + 1] == ws[i].fields[path[1..][i]]
    {
      assert vs[(i + 1) + 1] == vs[i + 1].fields[path[i + 1]];
    }
  }

  /** What a KVRouter matches for a dotted key: the text at the end of the path, and else the empty text. */
  lemma TextAtIff(body: map<string, Value>, name: string)
    ensures forall t :: Reaches(Obj(body), Split(name, "."), Text(t)) ==> TextAt(body, name) == t
    ensures (forall t :: !Reaches(Obj(body), Split(name, "."), Text(t))) ==> TextAt(body, name) == ""
  {
    forall t: string ensures At(Obj(body), Split(name, ".")) == Some(Text(t)) <==>
                             Reaches(Obj(body), Split(name, "."), Text(t))
    {
      AtIff(Obj(body), Split(name, "."), Text(t));
    }
  }
}
