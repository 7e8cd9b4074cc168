/** The parsed JSON tree the profile accessors read: the part of a rapidjson
    `Value` they observe (its type tag, its number flags, its string, its
    object members). */
module Json {

  datatype Option<+T> = None | Some(value: T)

  /** Fixed-width integers of the C++ side. */
  type Int32 = x: int | -0x8000_0000 <= x < 0x8000_0000
  type UInt32 = x: int | 0 <= x < 0x1_0000_0000

  /** rapidjson's type tags, in the order of their numeric values
      (the order in which the profile code names them). */
  datatype Type = NullType | FalseType | TrueType | ObjectType | ArrayType | StringType | NumberType

  /** A JSON number as rapidjson stores it: an integer literal, or one with a
      fraction or exponent (held as a double, abstracted here to a real). */
  datatype Number = Integer(i: int) | Floating(x: real)

  datatype Value =
    | Null
    | Bool(b: bool)
    | Object(members: seq<Member>)
    | Array(elements: seq<Value>)
    | String(text: string)
    | Num(n: Number)

  datatype Member = Member(name: string, value: Value)

  /** `Value::GetType`: booleans carry their truth value in the tag. */
  function TypeOf(v: Value): (t: Type)
    ensures t == TrueType || t == FalseType <==> v.Bool?
    ensures t == TrueType <==> v.Bool? && v.b
    ensures t == ObjectType <==> v.Object?
    ensures t == StringType <==> v.String?
    ensures t == NumberType <==> v.Num?
    ensures t == NullType <==> v.Null?
  {
    match v
    case Null => NullType
    case Bool(b) => if b then TrueType else FalseType
    case Object(_) => ObjectType
    case Array(_) => ArrayType
    case String(_) => StringType
    case Num(_) => NumberType
  }

  /** `Value::IsInt`: an integer that fits a signed 32-bit int. */
  predicate IsInt(v: Value)
    ensures IsInt(v) ==> TypeOf(v) == NumberType
  {
    v.Num? && v.n.Integer? && -0x8000_0000 <= v.n.i < 0x8000_0000
  }

  /** `Value::IsUint`: an integer that fits an unsigned 32-bit int. */
  predicate IsUint(v: Value)
    ensures IsUint(v) ==> TypeOf(v) == NumberType
  {
    v.Num? && v.n.Integer? && 0 <= v.n.i < 0x1_0000_0000
  }

  /** Where both flags are up, both getters read the same number. */
  function GetInt(v: Value): (r: Int32)
    requires IsInt(v)
    ensures IsUint(v) ==> r == GetUint(v)
    ensures r >= 0 ==> IsUint(v)
  {
    v.n.i
  }

  /** An unsigned value below 2^31 is also a signed one. */
  function GetUint(v: Value): (r: UInt32)
    requires IsUint(v)
    ensures r < 0x8000_0000 ==> IsInt(v)
  {
    v.n.i
  }

  /** The object has a member called `name`. */
  ghost predicate HasMember(v: Value, name: string) {
    v.Object? && exists k :: 0 <= k < |v.members| && v.members[k].name == name
  }

  /** `x` is the value of the first member of `v` called `name`. */
  ghost predicate FirstMember(v: Value, name: string, x: Value) {
    v.Object? &&
    exists k :: 0 <= k < |v.members| && v.members[k].name == name && v.members[k].value == x &&
                forall j :: 0 <= j < k ==> v.members[j].name != name
  }

  /** Position of the first member called `name`, if any. */
  function MemberIndex(members: seq<Member>, name: string): (r: Option<nat>)
    ensures r.Some? ==> r.value < |members| && members[r.value].name == name
    ensures r.Some? ==> forall j :: 0 <= j < r.value ==> members[j].name != name
    ensures r.None? ==> forall j :: 0 <= j < |members| ==> members[j].name != name
  {
    if |members| == 0 then None
    else if members[0].name == name then Some(0)
    else match MemberIndex(members[1..], name)
      case None => None
      case Some(k) => Some(k + 1)
  }

  /** `Value::FindMember`: first-match lookup of an object member. A value that
      is not an Object has no members here. */
  function FindMember(v: Value, name: string): (r: Option<Value>)
    ensures r.Some? <==> HasMember(v, name)
    ensures r.Some? ==> FirstMember(v, name, r.value)
  {
    if !v.Object? then None
    else match MemberIndex(v.members, name)
      case None => None
      case Some(k) => Some(v.members[k].value)
  }

  /** Duplicate keys: the member listed first wins. */
  lemma FirstListedMemberWins(name: string, x: Value, y: Value, rest: seq<Member>)
    ensures FindMember(Object([Member(name, x)] + rest + [Member(name, y)]), name) == Some(x)
  {
  }

  /** Members placed before the one looked up, under other names, do not affect the lookup. */
  lemma LookupSkipsOtherNames(name: string, other: Member, rest: seq<Member>)
    requires other.name != name
    ensures FindMember(Object([other] + rest), name) == FindMember(Object(rest), name)
  {
  }
}
