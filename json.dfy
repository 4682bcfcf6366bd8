/** Decoded JSON values as the relay's Python code sees them after
    `json.loads`, with the dictionary lookup, truthiness and `str()`
    rendering that code relies on. */
module Json {
  import opened Wrappers
  import opened Text

  /** A decoded JSON value; numbers are integers. An object keeps its
      fields in document order. */
  datatype Value =
    | JNull
    | JBool(b: bool)
    | JNumber(n: int)
    | JString(s: string)
    | JArray(items: seq<Value>)
    | JObject(fields: seq<(string, Value)>)

  /** `dict.get(key)`: the last binding of `key` wins, as it does when
      `json.loads` meets a repeated key. */
  function Get(fields: seq<(string, Value)>, key: string): (r: Option<Value>)
    ensures r.Some? <==> exists i :: 0 <= i < |fields| && fields[i].0 == key
    ensures r.Some? ==> (key, r.value) in fields
    decreases |fields|
  {
    if fields == [] then None
    else if fields[|fields| - 1].0 == key then Some(fields[|fields| - 1].1)
    else Get(fields[..|fields| - 1], key)
  }

  /** Python truthiness of an optional value; a missing value is `None`. */
  predicate Truthy(v: Option<Value>) {
    match v
    case None => false
    case Some(JNull) => false
    case Some(JBool(b)) => b
    case Some(JNumber(n)) => n != 0
    case Some(JString(s)) => s != ""
    case Some(JArray(items)) => items != []
    case Some(JObject(fields)) => fields != []
  }

  /** Whether `key` is bound at all. */
  predicate Binds(fields: seq<(string, Value)>, key: string) {
    exists j :: 0 <= j < |fields| && fields[j].0 == key
  }

  /** The position of the first binding of `key`. */
  function FirstBinding(fields: seq<(string, Value)>, key: string): (i: nat)
    requires Binds(fields, key)
    ensures i < |fields| && fields[i].0 == key
    ensures forall j :: 0 <= j < i ==> fields[j].0 != key
    decreases |fields|
  {
    var init := fields[..|fields| - 1];
    if Binds(init, key) then FirstBinding(init, key)
    else
      assert forall j :: 0 <= j < |init| ==> fields[j].0 != key by {
        forall j | 0 <= j < |init| ensures fields[j].0 != key { assert init[j] == fields[j]; }
      }
      |fields| - 1
  }

  /** A key is bound in a non-empty object exactly when it is bound before
      the last field or by the last field. */
  lemma BindsOfInit(fields: seq<(string, Value)>)
    requires fields != []
    ensures forall k :: Binds(fields, k) <==> Binds(fields[..|fields| - 1], k) || k == fields[|fields| - 1].0
  {
    var init := fields[..|fields| - 1];
    forall k ensures Binds(fields, k) <==> Binds(init, k) || k == fields[|fields| - 1].0 {
      if Binds(init, k) {
        var j :| 0 <= j < |init| && init[j].0 == k;
        assert fields[j] == init[j];
      }
      if Binds(fields, k) && k != fields[|fields| - 1].0 {
        var j :| 0 <= j < |fields| && fields[j].0 == k;
        assert init[j] == fields[j];
      }
    }
  }

  /** The keys of an object, each once, in the order of their first
      binding: the order of a `dict` that `json.loads` fills in. */
  function Keys(fields: seq<(string, Value)>): (r: seq<string>)
    ensures forall key :: key in r <==> Binds(fields, key)
    ensures forall i, j :: 0 <= i < j < |r| ==> r[i] != r[j]
    ensures forall i, j :: 0 <= i < j < |r| ==> FirstBinding(fields, r[i]) < FirstBinding(fields, r[j])
    decreases |fields|
  {
    if fields == [] then []
    else
      var init := fields[..|fields| - 1];
      var keys := Keys(init);
      var key := fields[|fields| - 1].0;
      BindsOfInit(fields);
      if key in keys then keys
      else keys + [key]
  }

  /** The keys come in the order of their first bindings. */
  lemma {:induction false} KeysInBindingOrder(fields: seq<(string, Value)>)
    ensures var r := Keys(fields);
      forall i, j :: 0 <= i < j < |r| ==>
        (Binds(fields, r[i]) && Binds(fields, r[j]) && FirstBinding(fields, r[i]) < FirstBinding(fields, r[j]))
    decreases |fields|
  {
    if fields != [] {
      var init := fields[..|fields| - 1];
      var keys := Keys(init);
      var key := fields[|fields| - 1].0;
      KeysInBindingOrder(init);
      var r := Keys(fields);
      forall i, j | 0 <= i < j < |r|
        ensures Binds(fields, r[i]) && Binds(fields, r[j]) && FirstBinding(fields, r[i]) < FirstBinding(fields, r[j])
      {
        assert r[i] in r && r[j] in r;
        assert keys[i] == r[i] && keys[i] in keys;
        assert FirstBinding(fields, r[i]) == FirstBinding(init, r[i]);
        if j < |keys| {
          assert keys[j] == r[j] && keys[j] in keys;
          assert FirstBinding(fields, r[j]) == FirstBinding(init, r[j]);
        } else {
          assert r[j] == key && !Binds(init, key);
        }
      }
    }
  }

  /** The position of the binding of `key` that counts: its last one. */
  function LastBinding(fields: seq<(string, Value)>, key: string): (i: nat)
    requires Binds(fields, key)
    ensures i < |fields| && fields[i].0 == key
    ensures forall j :: i < j < |fields| ==> fields[j].0 != key
    ensures Get(fields, key) == Some(fields[i].1)
    decreases |fields|
  {
    if fields[|fields| - 1].0 == key then |fields| - 1
    else
      var init := fields[..|fields| - 1];
      assert Binds(init, key) by {
        var j :| 0 <= j < |fields| && fields[j].0 == key;
        assert init[j] == fields[j];
      }
      LastBinding(init, key)
  }

  /** Python's `repr()` of a decoded value. An object shows each key once,
      where it was first bound, with the value its last binding gives. */
  function Repr(v: Value): string
    decreases v
  {
    match v
    case JNull => "None"
    case JBool(b) => if b then "True" else "False"
    case JNumber(n) => IntToString(n)
    case JString(s) => "'" + s + "'"
    case JArray(items) =>
      "[" + Join(seq(|items|, i requires 0 <= i < |items| => Repr(items[i])), ", ") + "]"
    case JObject(fields) =>
      var keys := Keys(fields);
      "{" + Join(seq(|keys|, i requires 0 <= i < |keys| =>
        assert keys[i] in keys;
        "'" + keys[i] + "': " + Repr(fields[LastBinding(fields, keys[i])].1)), ", ") + "}"
  }

  /** A repeated key is shown once, with its last value. */
  lemma ReprRepeatedKey()
    ensures Repr(JObject([("a", JString("billing")), ("a", JNumber(1))])) == "{'a': 1}"
  {
    var fields := [("a", JString("billing")), ("a", JNumber(1))];
    assert fields[..1] == [("a", JString("billing"))];
    assert Keys(fields[..1][..0]) == [];
    assert Keys(fields) == ["a"];
    assert LastBinding(fields, "a") == 1;
    assert IntToString(1) == "1";
  }

  /** Python's `str()`: a string is itself, any other value its `repr()`. */
  function ToStr(v: Value): (r: string)
    ensures v.JString? ==> r == v.s
    ensures !v.JString? ==> r == Repr(v)
  {
    if v.JString? then v.s else Repr(v)
  }

  /** What `json.loads` is taken to satisfy: a document that decodes to a
      string is longer than that string, since its quotes are dropped. */
  ghost predicate Shrinks(parse: string -> Option<Value>) {
    forall s :: parse(s).Some? && parse(s).value.JString? ==> |parse(s).value.s| < |s|
  }
}
