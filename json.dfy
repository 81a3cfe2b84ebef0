/** JSON values as the handlers see them once Express has parsed a body, and
    the two JavaScript notions the handlers rely on: reading a property of a
    value (which may give `undefined`) and truthiness (the `if (x)` test). */
module Json {

  /** A JavaScript value that may be `undefined`: `None` is `undefined`. */
  datatype Option<+T> = None | Some(value: T)

  /** A parsed JSON value. Numbers are integers here (see README, "Left out"). */
  datatype Value =
    | Null
    | Bool(b: bool)
    | Num(n: int)
    | Str(s: string)
    | Arr(items: seq<Value>)
    | Obj(fields: seq<Field>)

  datatype Field = Field(key: string, value: Value)

  /** The value stored under `key` in an object's field list. As with
      `JSON.parse`, when a key is repeated the last occurrence wins. */
  function Lookup(fields: seq<Field>, key: string): (r: Option<Value>)
    ensures r.None? <==> forall i :: 0 <= i < |fields| ==> fields[i].key != key
    ensures r.Some? ==>
      exists i :: 0 <= i < |fields| && fields[i] == Field(key, r.value) &&
        forall j :: i < j < |fields| ==> fields[j].key != key
  {
    if fields == [] then None
    else if fields[|fields| - 1].key == key then Some(fields[|fields| - 1].value)
    else Lookup(fields[..|fields| - 1], key)
  }

  /** `v.key` for the keys the handlers read (`username`, `password`,
      `token`): an object yields its field; a string, a number, an array or a
      boolean has no property of those names, own or inherited, so the read
      gives `undefined`. Other keys (`length`, `constructor`) would not give
      `undefined`, and no handler reads them. Reading a property of `null` throws in JavaScript;
      callers that can meet `Null` handle that case before calling this. */
  function Member(v: Value, key: string): (r: Option<Value>)
    ensures !v.Obj? ==> r.None?
    ensures v.Obj? ==> r == Lookup(v.fields, key)
  {
    match v
    case Obj(fields) => Lookup(fields, key)
    case _ => None
  }

  /** As with `JSON.parse`, the last of several fields with the same key is
      the one read, whatever fields follow it. */
  lemma {:induction false} MemberLastKeyWins(a: seq<Field>, key: string, v: Value, b: seq<Field>)
    requires forall j :: 0 <= j < |b| ==> b[j].key != key
    ensures Member(Obj(a + [Field(key, v)] + b), key) == Some(v)
    decreases |b|
  {
    var fields := a + [Field(key, v)] + b;
    if b == [] {
      assert fields[|fields| - 1] == Field(key, v);
      assert fields[..|fields| - 1] == a;
    } else {
      var b' := b[..|b| - 1];
      assert fields[|fields| - 1] == b[|b| - 1];
      assert fields[..|fields| - 1] == a + [Field(key, v)] + b';
      MemberLastKeyWins(a, key, v, b');
    }
  }

  /** The keys of an object, in order; empty for any other value. */
  function Keys(v: Value): (ks: seq<string>)
    ensures v.Obj? ==> |ks| == |v.fields|
    ensures v.Obj? ==> forall i :: 0 <= i < |ks| ==> ks[i] == v.fields[i].key
    ensures !v.Obj? ==> ks == []
  {
    match v
    case Obj(fields) => seq(|fields|, i requires 0 <= i < |fields| => fields[i].key)
    case _ => []
  }

  /** JavaScript truthiness: `undefined`, `null`, `false`, `0` and `""` are
      falsy; everything else (including empty arrays and objects) is truthy. */
  predicate Truthy(v: Option<Value>)
  {
    match v
    case None => false
    case Some(Null) => false
    case Some(Bool(b)) => b
    case Some(Num(n)) => n != 0
    case Some(Str(s)) => s != ""
    case Some(Arr(_)) => true
    case Some(Obj(_)) => true
  }

  /** The falsy values, listed: a value is falsy exactly when it is one of them. */
  lemma FalsyValues(v: Option<Value>)
    ensures !Truthy(v) <==> v in {None, Some(Null), Some(Bool(false)), Some(Num(0)), Some(Str(""))}
  {
  }
}
