/** JSON values as the tunnel server sees them after `JSON.parse`, and the two
    pieces of JavaScript semantics the server relies on when it reads them:
    truthiness (`x || d`) and property reads on a parsed value. */
module Json {

  datatype Option<+T> = None | Some(value: T)

  /** A parsed JSON value. Numbers are restricted to integers; an object keeps
      its members in source order, duplicates included. */
  datatype Json =
    | Null
    | Bool(b: bool)
    | Num(n: int)
    | Str(s: string)
    | Arr(items: seq<Json>)
    | Obj(members: seq<(string, Json)>)

  /** JavaScript truthiness of a property read; `None` stands for `undefined`. */
  predicate Truthy(v: Option<Json>) {
    match v
    case None => false
    case Some(Null) => false
    case Some(Bool(b)) => b
    case Some(Num(n)) => n != 0
    case Some(Str(s)) => s != ""
    case Some(_) => true
  }

  /** `v || d`: the value read when it is truthy, the default otherwise. */
  function OrElse(v: Option<Json>, d: Json): (r: Json) {
    if Truthy(v) then v.value else d
  }

  /** The value `JSON.parse` leaves under `key`: when the text repeats a key,
      the last occurrence wins. */
  function Lookup(members: seq<(string, Json)>, key: string): (r: Option<Json>)
    decreases |members|
  {
    if |members| == 0 then None
    else
      var n := |members| - 1;
      if members[n].0 == key then Some(members[n].1) else Lookup(members[..n], key)
  }

  /** `Lookup` finds a value exactly when some member carries the key, and
      the value it finds is that of the last such member. */
  lemma {:induction false} LookupFinds(members: seq<(string, Json)>, key: string)
    ensures Lookup(members, key).Some? <==> exists i :: 0 <= i < |members| && members[i].0 == key
    ensures Lookup(members, key).Some? ==>
              exists i :: 0 <= i < |members| && members[i] == (key, Lookup(members, key).value) &&
                          forall j :: i < j < |members| ==> members[j].0 != key
    decreases |members|
  {
    if |members| > 0 {
      var n := |members| - 1;
      if members[n].0 != key {
        LookupFinds(members[..n], key);
        assert forall i :: 0 <= i < n ==> members[..n][i] == members[i];
      }
    }
  }

  /** The converse reading of `Lookup`: the member at the last position that
      carries `key` is the one found. */
  lemma {:induction false} LookupAt(members: seq<(string, Json)>, key: string, i: nat)
    requires i < |members| && members[i].0 == key
    requires forall j :: i < j < |members| ==> members[j].0 != key
    ensures Lookup(members, key) == Some(members[i].1)
    decreases |members|
  {
    var n := |members| - 1;
    if i < n {
      assert members[n].0 != key;
      assert members[..n][i] == members[i];
      LookupAt(members[..n], key, i);
    }
  }

  /** Outcome of reading a property of a parsed value in JavaScript. */
  datatype Access = Threw | Read(value: Option<Json>)

  /** `v[key]` for the member names this server reads (`type`, `status`,
      `headers`, `body`), none of which a built-in prototype defines: reading a
      property of `null` throws a TypeError, an object yields its member (or
      `undefined`), any other value yields `undefined`. */
  function Member(v: Json, key: string): (r: Access) {
    match v
    case Null => Threw
    case Obj(m) => Read(Lookup(m, key))
    case _ => Read(None)
  }
}
