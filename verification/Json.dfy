// JSON values as serde_json holds them with insertion-ordered objects.
module Json {
  import opened Wrappers

  datatype Value = Null | Bool(b: bool) | Int(n: int) | Float(text: string)
    | Str(s: string) | Arr(items: seq<Value>) | Obj(fields: seq<(string, Value)>)

  type Fields = seq<(string, Value)>

  // Map::get
  function Get(fields: Fields, key: string): (v: Option<Value>)
    ensures v.Some? ==> (key, v.value) in fields
    ensures v == None <==> forall f :: f in fields ==> f.0 != key
  {
    if fields == [] then None
    else if fields[0].0 == key then Some(fields[0].1)
    else Get(fields[1..], key)
  }

  // Map::insert: in place when the key is there, at the end when it is not.
  function Put(fields: Fields, key: string, v: Value): Fields {
    if fields == [] then [(key, v)]
    else if fields[0].0 == key then [(key, v)] + fields[1..]
    else [fields[0]] + Put(fields[1..], key, v)
  }

  // Value::get, as_str, as_u64, as_array on any value
  function Member(v: Value, key: string): Option<Value> {
    if v.Obj? then Get(v.fields, key) else None
  }

  function AsStr(v: Option<Value>): Option<string> {
    match v case Some(Str(s)) => Some(s) case _ => None
  }

  function AsU64(v: Option<Value>): Option<nat> {
    match v
    case Some(Int(n)) => if 0 <= n < 0x1_0000_0000_0000_0000 then Some(n) else None
    case _ => None
  }

  function AsArray(v: Option<Value>): Option<seq<Value>> {
    match v case Some(Arr(items)) => Some(items) case _ => None
  }

  lemma {:induction false} GetPut(fields: Fields, key: string, v: Value, other: string)
    ensures Get(Put(fields, key, v), other) == if other == key then Some(v) else Get(fields, other)
  {
    if fields != [] && fields[0].0 != key {
      GetPut(fields[1..], key, v, other);
    }
  }

  lemma {:induction false} PutPut(fields: Fields, key: string, v: Value, w: Value)
    ensures Put(Put(fields, key, v), key, w) == Put(fields, key, w)
  {
    if fields != [] && fields[0].0 != key {
      PutPut(fields[1..], key, v, w);
    }
  }

  // The keys in order: a Put keeps them, and at most appends its own.
  function Keys(fields: Fields): (ks: seq<string>)
    ensures |ks| == |fields| && forall i :: 0 <= i < |ks| ==> ks[i] == fields[i].0
  {
    if fields == [] then [] else [fields[0].0] + Keys(fields[1..])
  }

  lemma {:induction false} PutKeys(fields: Fields, key: string, v: Value)
    ensures Keys(Put(fields, key, v)) == if Get(fields, key).Some? then Keys(fields) else Keys(fields) + [key]
  {
    if fields != [] && fields[0].0 != key {
      PutKeys(fields[1..], key, v);
    }
  }

  // Only the fields named differ, and no field moves.
  ghost predicate SameBut(before: Fields, after: Fields, a: string, b: string) {
    (forall key: string :: key != a && key != b ==> Get(after, key) == Get(before, key)) && Keys(before) <= Keys(after)
  }

  lemma PutOnly(fields: Fields, key: string, v: Value)
    ensures Get(Put(fields, key, v), key) == Some(v) && SameBut(fields, Put(fields, key, v), key, key)
  {
    forall other: string
      ensures Get(Put(fields, key, v), other) == if other == key then Some(v) else Get(fields, other)
    {
      GetPut(fields, key, v, other);
    }
    PutKeys(fields, key, v);
  }

  lemma SameButBoth(a: Fields, b: Fields, c: Fields, key: string, other: string)
    requires SameBut(a, b, key, key) && SameBut(b, c, other, other) && key != other
    ensures SameBut(a, c, key, other) && Get(c, key) == Get(b, key) && Get(b, other) == Get(a, other)
  {
  }
}
