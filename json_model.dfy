/**
  An already-parsed JSON value and the four JsonElement accessors the
  dispatcher uses (GetProperty, TryGetProperty, GetString, GetInt32).
  Each exception an accessor throws becomes a Fault whose Reason names the
  exception kind: KeyNotFoundException (MissingProperty),
  InvalidOperationException (WrongKind) and FormatException (NotInt32).
 */
module JsonModel {

  datatype Option<+T> = None | Some(value: T)

  /** The values GetInt32 can return. */
  type Int32 = i: int | -0x8000_0000 <= i <= 0x7FFF_FFFF

  /**
    A JSON number as its literal was written. GetInt32 accepts only a plain
    integer literal such as `-12`; a literal with a fraction or an exponent
    part (`12.0`, `1.2e1`) is refused even when its value is an integer.
   */
  datatype Number =
    | Integer(value: int)
    | Decimal(significand: int, exponent: int)  // significand * 10^exponent

  datatype Json =
    | Null
    | Bool(b: bool)
    | Num(n: Number)
    | Str(s: string)
    | Arr(items: seq<Json>)
    | Obj(members: seq<(string, Json)>)

  /** The value kinds an accessor can demand. */
  datatype Kind = ObjectKind | StringKind | NumberKind

  datatype Reason =
    | MissingProperty(name: string)
    | WrongKind(expected: Kind)
    | NotInt32

  /** Either a value, or the fault (an unhandled exception) that aborts the request. */
  datatype Result<+T> = Ok(value: T) | Fault(reason: Reason) {
    predicate IsFailure() {
      Fault?
    }

    function PropagateFailure<U>(): Result<U>
      requires Fault?
    {
      Fault(reason)
    }

    function Extract(): T
      requires Ok?
    {
      value
    }
  }

  /**
    The value of the property `name` among an object's members. The search
    runs from the last member backwards, so when a name occurs twice the
    last definition is the one found.
   */
  function Lookup(members: seq<(string, Json)>, name: string): Option<Json> {
    if members == [] then None
    else if members[|members| - 1].0 == name then Some(members[|members| - 1].1)
    else Lookup(members[..|members| - 1], name)
  }

  /**
    Lookup finds nothing exactly when no member has the name, and otherwise
    the value of the last member that has it.
   */
  lemma {:induction false} LookupFindsLastDefinition(members: seq<(string, Json)>, name: string)
    ensures Lookup(members, name).None? <==> forall i :: 0 <= i < |members| ==> members[i].0 != name
    ensures Lookup(members, name).Some? ==>
      exists i :: 0 <= i < |members| && members[i] == (name, Lookup(members, name).value) &&
        forall j :: i < j < |members| ==> members[j].0 != name
  {
    if members != [] && members[|members| - 1].0 != name {
      var prefix := members[..|members| - 1];
      LookupFindsLastDefinition(prefix, name);
      assert forall i :: 0 <= i < |prefix| ==> prefix[i] == members[i];
    }
  }

  /**
    JsonElement.GetProperty. The element is `None` for default(JsonElement),
    the value of an absent optional property; like any value that is not an
    object, it has no properties to get.
   */
  function GetProperty(element: Option<Json>, name: string): Result<Json> {
    match element
    case Some(Obj(members)) =>
      (match Lookup(members, name)
       case Some(v) => Ok(v)
       case None => Fault(MissingProperty(name)))
    case _ => Fault(WrongKind(ObjectKind))
  }

  /** JsonElement.TryGetProperty: an absent property is `None`, not a fault. */
  function TryGetProperty(element: Json, name: string): Result<Option<Json>> {
    match element
    case Obj(members) => Ok(Lookup(members, name))
    case _ => Fault(WrongKind(ObjectKind))
  }

  /** JsonElement.GetString: a JSON null reads as the null string, `None`. */
  function GetString(element: Json): Result<Option<string>> {
    match element
    case Str(s) => Ok(Some(s))
    case Null => Ok(None)
    case _ => Fault(WrongKind(StringKind))
  }

  /** JsonElement.GetInt32. */
  function GetInt32(element: Json): Result<Int32> {
    match element
    case Num(Integer(i)) => if -0x8000_0000 <= i <= 0x7FFF_FFFF then Ok(i) else Fault(NotInt32)
    case Num(_) => Fault(NotInt32)
    case _ => Fault(WrongKind(NumberKind))
  }

  /** The JSON a nullable string serializes to. */
  function NullableStr(s: Option<string>): Json {
    match s
    case Some(t) => Str(t)
    case None => Null
  }

  /** The value of property `name` of an element; `None` when it has none or is not an object. */
  function Member(element: Option<Json>, name: string): Option<Json> {
    match element
    case Some(Obj(members)) => Lookup(members, name)
    case _ => None
  }

  // Lookup in the small literal objects the server builds: the last member
  // with the name wins.

  lemma LookupOne(k1: string, v1: Json)
    ensures forall name :: Lookup([(k1, v1)], name) == if name == k1 then Some(v1) else None
  {
  }

  lemma LookupTwo(k1: string, v1: Json, k2: string, v2: Json)
    ensures forall name ::
              Lookup([(k1, v1), (k2, v2)], name) ==
              if name == k2 then Some(v2) else if name == k1 then Some(v1) else None
  {
    assert [(k1, v1), (k2, v2)][..1] == [(k1, v1)];
    LookupOne(k1, v1);
  }

  lemma LookupThree(k1: string, v1: Json, k2: string, v2: Json, k3: string, v3: Json)
    ensures forall name ::
              Lookup([(k1, v1), (k2, v2), (k3, v3)], name) ==
              if name == k3 then Some(v3) else if name == k2 then Some(v2) else if name == k1 then Some(v1) else None
  {
    assert [(k1, v1), (k2, v2), (k3, v3)][..2] == [(k1, v1), (k2, v2)];
    LookupTwo(k1, v1, k2, v2);
  }

  lemma LookupFour(k1: string, v1: Json, k2: string, v2: Json, k3: string, v3: Json, k4: string, v4: Json)
    ensures forall name ::
              Lookup([(k1, v1), (k2, v2), (k3, v3), (k4, v4)], name) ==
              if name == k4 then Some(v4) else Lookup([(k1, v1), (k2, v2), (k3, v3)], name)
  {
    assert [(k1, v1), (k2, v2), (k3, v3), (k4, v4)][..3] == [(k1, v1), (k2, v2), (k3, v3)];
  }
}
