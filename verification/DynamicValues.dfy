/** Dynamic values: a tagged tree of scalars, arrays and objects, written to and read from an archive. */
module DynamicValues {
  import opened Outcomes

  type Real(!new, ==)

  datatype Type = OBJECT | INT32 | INT64 | DOUBLE | BOOLEAN | DATA | ARRAY | STRING | UNDEFINED

  datatype Value =
    | Int32(i: int)
    | Int64(l: int)
    | Bool(b: bool)
    | Double(d: Real)
    | Str(s: string)
    | Data(bytes: seq<bv8>)
    | Arr(elements: seq<Value>, readOnly: bool)
    | Obj(fields: map<string, Value>, readOnly: bool)

  /** An archive is a stream of typed tokens; a container is preceded by its size. */
  datatype Token =
    | Tag(t: Type)
    | Size(n: nat)
    | Integer32(i: int)
    | Integer64(l: int)
    | Boolean(b: bool)
    | Floating(d: Real)
    | Text(s: string)
    | Bytes(bytes: seq<bv8>)

  predicate Scalar(v: Value) {
    !v.Arr? && !v.Obj?
  }

  function WriteScalar(v: Value): seq<Token>
    requires Scalar(v)
  {
    match v
    case Str(s) => [Tag(STRING), Text(s)]
    case Data(bytes) => [Tag(DATA), Bytes(bytes)]
    case Bool(b) => [Tag(BOOLEAN), Boolean(b)]
    case Int32(i) => [Tag(INT32), Integer32(i)]
    case Int64(l) => [Tag(INT64), Integer64(l)]
    case Double(d) => [Tag(DOUBLE), Floating(d)]
  }

  // ---------------------------------------------------------------------------------------------
  // Writing
  // ---------------------------------------------------------------------------------------------

  /** The order in which the fields of an object are walked is up to its hash table: any function that
      lists the keys of every object, each once. */
  type Walk = Value -> seq<string>

  ghost predicate Enumerates(keys: seq<string>, fields: map<string, Value>) {
    && (forall i, j :: 0 <= i < j < |keys| ==> keys[i] != keys[j])
    && (forall k :: k in keys <==> k in fields)
  }

  ghost predicate WalksAll(walk: Walk) {
    forall v: Value :: v.Obj? ==> Enumerates(walk(v), v.fields)
  }

  ghost function Write(walk: Walk, v: Value): seq<Token>
    requires WalksAll(walk)
    decreases v, 1, 0
  {
    if v.Arr? then [Tag(ARRAY), Size(|v.elements|)] + WriteElements(walk, v, 0)
    else if v.Obj? then [Tag(OBJECT), Size(|walk(v)|)] + WriteFields(walk, v, walk(v))
    else WriteScalar(v)
  }

  /** The elements of an array from index `n` on. */
  ghost function WriteElements(walk: Walk, v: Value, n: nat): seq<Token>
    requires WalksAll(walk) && v.Arr? && n <= |v.elements|
    decreases v, 0, |v.elements| - n
  {
    if n == |v.elements| then [] else Write(walk, v.elements[n]) + WriteElements(walk, v, n + 1)
  }

  ghost function WriteFields(walk: Walk, v: Value, keys: seq<string>): seq<Token>
    requires WalksAll(walk) && v.Obj? && forall k :: k in keys ==> k in v.fields
    decreases v, 0, |keys|
  {
    if |keys| == 0 then []
    else [Text(keys[0])] + (Write(walk, v.fields[keys[0]]) + WriteFields(walk, v, keys[1..]))
  }

  /** The archive being written. */
  class OutputArchive {
    var tokens: seq<Token>

    constructor ()
      ensures tokens == []
    {
      tokens := [];
    }

    method OutSerialize(walk: Walk, v: Value)
      requires WalksAll(walk)
      modifies this
      ensures tokens == old(tokens) + Write(walk, v)
      decreases v, 1, 0
    {
      match v {
        case Arr(elements, _) =>
          tokens := tokens + [Tag(ARRAY), Size(|elements|)];
          OutElements(walk, v, 0);
        case Obj(_, _) =>
          tokens := tokens + [Tag(OBJECT), Size(|walk(v)|)];
          OutFields(walk, v, walk(v));
        case _ =>
          tokens := tokens + WriteScalar(v);
      }
    }

    method OutElements(walk: Walk, v: Value, n: nat)
      requires WalksAll(walk) && v.Arr? && n <= |v.elements|
      modifies this
      ensures tokens == old(tokens) + WriteElements(walk, v, n)
      decreases v, 0, |v.elements| - n
    {
      if n < |v.elements| {
        OutSerialize(walk, v.elements[n]);
        OutElements(walk, v, n + 1);
      }
    }

    method OutFields(walk: Walk, v: Value, keys: seq<string>)
      requires WalksAll(walk) && v.Obj? && forall k :: k in keys ==> k in v.fields
      modifies this
      ensures tokens == old(tokens) + WriteFields(walk, v, keys)
      decreases v, 0, |keys|
    {
      if |keys| > 0 {
        tokens := tokens + [Text(keys[0])];
        OutSerialize(walk, v.fields[keys[0]]);
        OutFields(walk, v, keys[1..]);
        Regroup(old(tokens), [Text(keys[0])], Write(walk, v.fields[keys[0]]), WriteFields(walk, v, keys[1..]));
      }
    }
  }

  lemma Regroup(a: seq<Token>, b: seq<Token>, c: seq<Token>, d: seq<Token>)
    ensures a + b + c + d == a + (b + (c + d))
  {
  }

  // ---------------------------------------------------------------------------------------------
  // Reading
  // ---------------------------------------------------------------------------------------------

  /** The default-constructed variant holds the first of its types. */
  const BLANK := Int32(0)

  function ReadScalar(t: Type, token: Token): Option<Value> {
    match (t, token)
    case (STRING, Text(s)) => Some(Str(s))
    case (DATA, Bytes(bytes)) => Some(Data(bytes))
    case (BOOLEAN, Boolean(b)) => Some(Bool(b))
    case (INT32, Integer32(i)) => Some(Int32(i))
    case (INT64, Integer64(l)) => Some(Int64(l))
    case (DOUBLE, Floating(d)) => Some(Double(d))
    case _ => None
  }

  /** A value and the tokens after it; `None` if the archive is not one of ours. */
  function Read(ts: seq<Token>): (r: Option<(Value, seq<Token>)>)
    ensures r.Some? ==> |r.value.1| < |ts|
    decreases |ts|, 0
  {
    if |ts| == 0 || !ts[0].Tag? then None
    else if ts[0].t.UNDEFINED? then Some((BLANK, ts[1..]))
    else if |ts| == 1 then None
    else if ts[0].t.ARRAY? || ts[0].t.OBJECT? then
      if !ts[1].Size? then None
      else if ts[0].t.ARRAY? then
        var r := ReadElements(ts[2..], ts[1].n);
        if r.None? then None else Some((Arr(r.value.0, false), r.value.1))
      else
        var r := ReadFields(ts[2..], ts[1].n);
        if r.None? then None else Some((Obj(r.value.0, false), r.value.1))
    else
      var v := ReadScalar(ts[0].t, ts[1]);
      if v.None? then None else Some((v.value, ts[2..]))
  }

  function ReadElements(ts: seq<Token>, n: nat): (r: Option<(seq<Value>, seq<Token>)>)
    ensures r.Some? ==> |r.value.1| <= |ts|
    decreases |ts|, n
  {
    if n == 0 then Some(([], ts))
    else
      var first := Read(ts);
      if first.None? then None
      else
        var others := ReadElements(first.value.1, n - 1);
        if others.None? then None else Some(([first.value.0] + others.value.0, others.value.1))
  }

  function ReadFields(ts: seq<Token>, n: nat): (r: Option<(map<string, Value>, seq<Token>)>)
    ensures r.Some? ==> |r.value.1| <= |ts|
    decreases |ts|, n
  {
    if n == 0 then Some((map[], ts))
    else if |ts| == 0 || !ts[0].Text? then None
    else
      var first := Read(ts[1..]);
      if first.None? then None
      else
        var others := ReadFields(first.value.1, n - 1);
        if others.None? then None else Some((others.value.0[ts[0].s := first.value.0], others.value.1))
  }

  /** The archive being read. */
  class InputArchive {
    var tokens: seq<Token>

    constructor (tokens: seq<Token>)
      ensures this.tokens == tokens
    {
      this.tokens := tokens;
    }

    method Next() returns (t: Option<Token>)
      modifies this
      ensures t.Some? <==> old(tokens) != []
      ensures t.Some? ==> t.value == old(tokens)[0] && tokens == old(tokens)[1..]
      ensures t.None? ==> tokens == old(tokens)
    {
      if tokens == [] {
        return None;
      }
      t := Some(tokens[0]);
      tokens := tokens[1..];
    }

    method InSerialize() returns (v: Option<Value>)
      modifies this
      ensures var r := Read(old(tokens)); (v.Some? <==> r.Some?) && (v.Some? ==> (v.value, tokens) == r.value)
      decreases |tokens|, 0
    {
      var tag := Next();
      if tag.None? || !tag.value.Tag? {
        return None;
      }
      if tag.value.t.UNDEFINED? {
        return Some(BLANK);
      }
      var token := Next();
      if token.None? {
        return None;
      }
      if tag.value.t.ARRAY? || tag.value.t.OBJECT? {
        if !token.value.Size? {
          return None;
        }
        assert tokens == old(tokens)[2..];
        if tag.value.t.ARRAY? {
          var elements := InElements(token.value.n);
          v := if elements.None? then None else Some(Arr(elements.value, false));
        } else {
          var fields := InFields(token.value.n);
          v := if fields.None? then None else Some(Obj(fields.value, false));
        }
      } else {
        v := ReadScalar(tag.value.t, token.value);
      }
    }

    method InElements(n: nat) returns (vs: Option<seq<Value>>)
      modifies this
      ensures var r := ReadElements(old(tokens), n); (vs.Some? <==> r.Some?) && (vs.Some? ==> (vs.value, tokens) == r.value)
      decreases |tokens|, n
    {
      if n == 0 {
        return Some([]);
      }
      var first := InSerialize();
      if first.None? {
        return None;
      }
      var others := InElements(n - 1);
      vs := if others.None? then None else Some([first.value] + others.value);
    }

    method InFields(n: nat) returns (fs: Option<map<string, Value>>)
      modifies this
      ensures var r := ReadFields(old(tokens), n); (fs.Some? <==> r.Some?) && (fs.Some? ==> (fs.value, tokens) == r.value)
      decreases |tokens|, n
    {
      if n == 0 {
        return Some(map[]);
      }
      var key := Next();
      if key.None? || !key.value.Text? {
        return None;
      }
      var first := InSerialize();
      if first.None? {
        return None;
      }
      var others := InFields(n - 1);
      fs := if others.None? then None else Some(others.value[key.value.s := first.value]);
    }
  }

  // ---------------------------------------------------------------------------------------------
  // The round trip
  // ---------------------------------------------------------------------------------------------

  /** The same value with every container writable. */
  function Thawed(v: Value): Value {
    match v
    case Arr(elements, _) => Arr(seq(|elements|, i requires 0 <= i < |elements| => Thawed(elements[i])), false)
    case Obj(fields, _) => Obj(map k | k in fields :: Thawed(fields[k]), false)
    case _ => v
  }

  /** The first token is the tag of the value's own type, and the second its payload, or its size. */
  lemma TagsAreTypes(walk: Walk, v: Value)
    requires WalksAll(walk)
    ensures |Write(walk, v)| >= 2
    ensures Write(walk, v)[0] == Tag(match v {
              case Int32(_) => INT32 case Int64(_) => INT64 case Bool(_) => BOOLEAN case Double(_) => DOUBLE
              case Str(_) => STRING case Data(_) => DATA case Arr(_, _) => ARRAY case Obj(_, _) => OBJECT })
    ensures v.Int32? ==> Write(walk, v)[1..] == [Integer32(v.i)]
    ensures v.Int64? ==> Write(walk, v)[1..] == [Integer64(v.l)]
    ensures v.Bool? ==> Write(walk, v)[1..] == [Boolean(v.b)]
    ensures v.Double? ==> Write(walk, v)[1..] == [Floating(v.d)]
    ensures v.Str? ==> Write(walk, v)[1..] == [Text(v.s)]
    ensures v.Data? ==> Write(walk, v)[1..] == [Bytes(v.bytes)]
    ensures v.Arr? ==> Write(walk, v)[1] == Size(|v.elements|)
    ensures v.Obj? ==> Write(walk, v)[1] == Size(|v.fields|)
  {
    if v.Obj? {
      assert Enumerates(walk(v), v.fields);
      KeysCount(walk(v), v.fields.Keys);
    }
  }

  /** A listing of the keys, each once, is as long as there are keys. */
  lemma {:induction false} KeysCount(keys: seq<string>, all: set<string>)
    requires (forall i, j :: 0 <= i < j < |keys| ==> keys[i] != keys[j]) && forall k :: k in keys <==> k in all
    ensures |keys| == |all|
  {
    if |keys| == 0 {
      assert all == {};
    } else {
      KeysCount(keys[1..], all - {keys[0]});
    }
  }

  /** An undefined type has no payload, and leaves the zero that a new value holds; no value writes this tag. */
  lemma UndefinedIsZero(walk: Walk, v: Value, rest: seq<Token>)
    requires WalksAll(walk)
    ensures Read([Tag(UNDEFINED)] + rest) == Some((Int32(0), rest))
    ensures |Write(walk, v)| > 0 && Write(walk, v)[0] != Tag(UNDEFINED)
  {
    assert ([Tag(UNDEFINED)] + rest)[1..] == rest;
  }

  /** No container in the value is read-only. */
  predicate Writable(v: Value) {
    match v
    case Arr(elements, readOnly) => !readOnly && forall i :: 0 <= i < |elements| ==> Writable(elements[i])
    case Obj(fields, readOnly) => !readOnly && forall k :: k in fields ==> Writable(fields[k])
    case _ => true
  }

  /** Reading what was written gives back the value, with its type tags, and leaves exactly the tokens that
      follow it, whatever order the fields were walked in. Only the read-only flags are lost. */
  lemma {:induction false} RoundTrip(walk: Walk, v: Value, rest: seq<Token>)
    requires WalksAll(walk)
    ensures Read(Write(walk, v) + rest) == Some((Thawed(v), rest))
    decreases v, 1, 0
  {
    if v.Arr? {
      ElementsRoundTrip(walk, v, 0, rest);
      assert Thawed(v).elements[0..] == Thawed(v).elements;
      ArrayRoundTrip(walk, v, rest);
    } else if v.Obj? {
      assert Enumerates(walk(v), v.fields);
      FieldsRoundTrip(walk, v, walk(v), rest);
      var fields := ReadFields(WriteFields(walk, v, walk(v)) + rest, |walk(v)|).value.0;
      assert fields.Keys == v.fields.Keys;
      assert fields == Thawed(v).fields;
      ObjectRoundTrip(walk, v, rest);
    } else {
      ScalarRoundTrip(v, rest);
    }
  }

  lemma ScalarRoundTrip(v: Value, rest: seq<Token>)
    requires Scalar(v)
    ensures Read(WriteScalar(v) + rest) == Some((v, rest))
  {
    var ts := WriteScalar(v) + rest;
    assert ts[2..] == rest;
    assert ts[0] == WriteScalar(v)[0] && ts[1] == WriteScalar(v)[1];
  }

  /** Reading a container is reading its body. */
  lemma ReadContainer(n: nat, body: seq<Token>)
    ensures var r := ReadElements(body, n);
      Read([Tag(ARRAY), Size(n)] + body) == if r.None? then None else Some((Arr(r.value.0, false), r.value.1))
    ensures var r := ReadFields(body, n);
      Read([Tag(OBJECT), Size(n)] + body) == if r.None? then None else Some((Obj(r.value.0, false), r.value.1))
  {
    assert ([Tag(ARRAY), Size(n)] + body)[2..] == body;
    assert ([Tag(OBJECT), Size(n)] + body)[2..] == body;
  }

  lemma ArrayRoundTrip(walk: Walk, v: Value, rest: seq<Token>)
    requires WalksAll(walk) && v.Arr?
    requires ReadElements(WriteElements(walk, v, 0) + rest, |v.elements|) == Some((Thawed(v).elements, rest))
    ensures Read(Write(walk, v) + rest) == Some((Thawed(v), rest))
  {
    var body := WriteElements(walk, v, 0);
    ReadContainer(|v.elements|, body + rest);
    assert [Tag(ARRAY), Size(|v.elements|)] + body + rest == [Tag(ARRAY), Size(|v.elements|)] + (body + rest);
  }

  lemma ObjectRoundTrip(walk: Walk, v: Value, rest: seq<Token>)
    requires WalksAll(walk) && v.Obj?
    requires ReadFields(WriteFields(walk, v, walk(v)) + rest, |walk(v)|) == Some((Thawed(v).fields, rest))
    ensures Read(Write(walk, v) + rest) == Some((Thawed(v), rest))
  {
    var body := WriteFields(walk, v, walk(v));
    ReadContainer(|walk(v)|, body + rest);
    assert [Tag(OBJECT), Size(|walk(v)|)] + body + rest == [Tag(OBJECT), Size(|walk(v)|)] + (body + rest);
  }

  lemma {:induction false} ElementsRoundTrip(walk: Walk, v: Value, n: nat, rest: seq<Token>)
    requires WalksAll(walk) && v.Arr? && n <= |v.elements|
    ensures ReadElements(WriteElements(walk, v, n) + rest, |v.elements| - n) == Some((Thawed(v).elements[n..], rest))
    decreases v, 0, |v.elements| - n
  {
    var ts := WriteElements(walk, v, n) + rest;
    if n == |v.elements| {
      assert ts == rest;
    } else {
      var after := WriteElements(walk, v, n + 1) + rest;
      assert ts == Write(walk, v.elements[n]) + after;
      RoundTrip(walk, v.elements[n], after);
      ElementsRoundTrip(walk, v, n + 1, rest);
      assert Thawed(v).elements[n..] == [Thawed(v.elements[n])] + Thawed(v).elements[n + 1..];
    }
  }

  lemma {:induction false} FieldsRoundTrip(walk: Walk, v: Value, keys: seq<string>, rest: seq<Token>)
    requires WalksAll(walk) && v.Obj? && forall k :: k in keys ==> k in v.fields
    ensures var r := ReadFields(WriteFields(walk, v, keys) + rest, |keys|);
      && r.Some? && r.value.1 == rest
      && (forall k :: k in r.value.0 <==> k in keys)
      && (forall k :: k in keys ==> r.value.0[k] == Thawed(v.fields[k]))
    decreases v, 0, |keys|
  {
    var ts := WriteFields(walk, v, keys) + rest;
    if |keys| == 0 {
      assert ts == rest;
    } else {
      var after := WriteFields(walk, v, keys[1..]) + rest;
      assert ts == [Text(keys[0])] + (Write(walk, v.fields[keys[0]]) + after);
      assert ts[1..] == Write(walk, v.fields[keys[0]]) + after;
      RoundTrip(walk, v.fields[keys[0]], after);
      FieldsRoundTrip(walk, v, keys[1..], rest);
    }
  }

  /** The round trip is the identity exactly on values without read-only containers. */
  lemma {:induction false} RoundTripExactWhen(walk: Walk, v: Value, rest: seq<Token>)
    requires WalksAll(walk)
    ensures Read(Write(walk, v) + rest) == Some((v, rest)) <==> Writable(v)
  {
    RoundTrip(walk, v, rest);
    ThawedFixed(v);
  }

  lemma {:induction false} ThawedFixed(v: Value)
    ensures Thawed(v) == v <==> Writable(v)
  {
    match v {
      case Arr(elements, readOnly) =>
        forall i | 0 <= i < |elements| ensures Thawed(elements[i]) == elements[i] <==> Writable(elements[i]) {
          ThawedFixed(elements[i]);
        }
        assert Thawed(v) == v ==> forall i :: 0 <= i < |elements| ==> Thawed(v).elements[i] == elements[i];
      case Obj(fields, readOnly) =>
        forall k | k in fields ensures Thawed(fields[k]) == fields[k] <==> Writable(fields[k]) {
          ThawedFixed(fields[k]);
        }
        assert Thawed(v) == v ==> forall k :: k in fields ==> Thawed(v).fields[k] == fields[k];
      case _ =>
    }
  }

  /** `push` is ignored by a read-only array. */
  function Push(v: Value, element: Value): Value
    requires v.Arr?
  {
    if v.readOnly then v else v.(elements := v.elements + [element])
  }

  /** So the lost flag is observable: an array that refused a push accepts it after a round trip. */
  lemma FrozenArrayThaws(walk: Walk, elements: seq<Value>, element: Value)
    requires WalksAll(walk)
    ensures var v := Arr(elements, true);
      var r := Read(Write(walk, v));
      && Push(v, element) == v
      && r.Some? && r.value.0.Arr? && |r.value.0.elements| == |elements|
      && Push(r.value.0, element) == Arr(r.value.0.elements + [element], false)
  {
    RoundTrip(walk, Arr(elements, true), []);
    assert Write(walk, Arr(elements, true)) + [] == Write(walk, Arr(elements, true));
  }
}
